/**
 * The part of Python's `calendar` module that punchcards rely on:
 * the proleptic Gregorian leap rule and the length of each month.
 */
module Calendar {

  /** Days per month in a common year, indexed by month (index 0 unused), as in `calendar.mdays`. */
  const MonthDays: seq<int> := [0, 31, 28, 31, 30, 31, 30, 31, 31, 30, 31, 30, 31]

  /**
   * Gregorian leap rule (`calendar.isleap`): divisible by 4, and not by 100
   * unless also by 400. Python's `%` floors, which agrees with Dafny's
   * Euclidean `%` because every divisor here is positive.
   */
  predicate IsLeap(year: int)
  {
    year % 4 == 0 && (year % 100 != 0 || year % 400 == 0)
  }

  /**
   * The day count that `calendar.monthrange(year, month)[1]` returns.
   * `monthrange` raises for a month outside 1..12; every caller guards against that first.
   */
  function DaysInMonth(year: int, month: int): (n: int)
    requires 1 <= month <= 12
    ensures 28 <= n <= 31
    ensures n == 29 <==> month == 2 && IsLeap(year)
    ensures n == 28 <==> month == 2 && !IsLeap(year)
    ensures n == 30 <==> month in {4, 6, 9, 11}
    ensures n == 31 <==> month in {1, 3, 5, 7, 8, 10, 12}
  {
    MonthDays[month] + if month == 2 && IsLeap(year) then 1 else 0
  }

  /** A (month, day) pair names a date that exists in `year`. */
  predicate IsValidDate(year: int, month: int, day: int)
  {
    1 <= month <= 12 && 1 <= day <= DaysInMonth(year, month)
  }

  /** Total number of days in months 1..k of `year`. */
  function DaysThrough(year: int, k: int): (n: int)
    requires 0 <= k <= 12
    decreases k
  {
    if k == 0 then 0 else DaysThrough(year, k - 1) + DaysInMonth(year, k)
  }

  /** The twelve month lengths add up to the Gregorian year: 366 days in a leap year, 365 otherwise. */
  lemma YearLength(year: int)
    ensures DaysThrough(year, 12) == if IsLeap(year) then 366 else 365
  {
  }

  /** February 29th exists exactly in leap years; the 30th and 31st never do. */
  lemma FebruaryDays(year: int)
    ensures IsValidDate(year, 2, 29) <==> IsLeap(year)
    ensures !IsValidDate(year, 2, 30) && !IsValidDate(year, 2, 31)
  {
  }

  /** The four leap-rule cases: plain leap, plain common, century divisible by 400, other century. */
  lemma LeapExamples()
    ensures IsValidDate(2024, 2, 29)
    ensures !IsValidDate(2023, 2, 29)
    ensures IsValidDate(2000, 2, 29)
    ensures !IsValidDate(1900, 2, 29)
  {
  }
}
