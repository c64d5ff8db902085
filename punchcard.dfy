/**
 * The punchcard domain entity: a card for one year with a label and a set of
 * punched (month, day) marks, its month-by-day grid, and its storage record.
 */
module Punchcards {
  import opened Wrappers
  import opened Calendar

  /** A punched date as a (month, day) pair. */
  type Mark = (int, int)

  /** Why `Punch` refused a date; the source raises `IndexError` in both cases. */
  datatype DateError =
    | MonthOutOfRange(month: int)
    | DayOutOfRange(month: int, day: int)

  /** One cell of the grid: a month heading in row 0, a day slot in the other rows. */
  datatype Cell =
    | Heading(name: string)
    | Slot(date: int, punched: bool)

  /** The storage record written by `to_json` and read by `load_json`. */
  datatype Record = Record(id: string, year: int, labelText: string, punches: seq<Mark>)

  /** The observable value of a card: identity, year, label and mark set. */
  datatype CardState = CardState(id: string, year: int, labelText: string, marks: set<Mark>)

  /** Month abbreviations of the grid's header row, in calendar order. */
  const MonthAbbrevs: seq<string> :=
    ["jan", "feb", "mar", "apr", "may", "jun", "jul", "aug", "sep", "oct", "nov", "dec"]

  /** The date checks `punch` makes before touching the marks, month first. */
  function CheckDate(year: int, month: int, day: int): (e: Option<DateError>)
    ensures e.None? <==> IsValidDate(year, month, day)
    ensures !(1 <= month <= 12) ==> e == Some(MonthOutOfRange(month))
    ensures 1 <= month <= 12 && e.Some? ==> e == Some(DayOutOfRange(month, day))
  {
    if month <= 0 || month > 12 then Some(MonthOutOfRange(month))
    else if day <= 0 || day > DaysInMonth(year, month) then Some(DayOutOfRange(month, day))
    else None
  }

  /** The mark set after adding (`punch`) or discarding (`!punch`) one mark. */
  function Toggled(marks: set<Mark>, mark: Mark, punch: bool): (r: set<Mark>)
    ensures mark in r <==> punch
    ensures forall x :: x != mark ==> (x in r <==> x in marks)
  {
    if punch then marks + {mark}
    else if mark in marks then marks - {mark}
    else marks
  }

  /** Every mark names a date that exists in `year`. */
  predicate MarksValid(year: int, marks: set<Mark>)
  {
    forall x :: x in marks ==> IsValidDate(year, x.0, x.1)
  }

  /** The grid cell for `day` in `month`: the day and whether it is punched, or `(-1, false)` for a date that does not exist. */
  function CellAt(year: int, marks: set<Mark>, day: int, month: int): (c: Cell)
    requires 1 <= day <= 31 && 1 <= month <= 12
    ensures c.Slot?
    ensures c.date == -1 <==> !IsValidDate(year, month, day)
    ensures c.date != -1 ==> c.date == day
    ensures c.punched <==> IsValidDate(year, month, day) && (month, day) in marks
  {
    if day <= DaysInMonth(year, month) then Slot(day, (month, day) in marks) else Slot(-1, false)
  }

  /** The mark set `load_json` rebuilds from a record's pair list. */
  function MarkSet(punches: seq<Mark>): (s: set<Mark>)
    ensures forall x :: x in s <==> x in punches
  {
    set x | x in punches
  }

  /** No pair occurs twice in the list. */
  predicate Distinct(punches: seq<Mark>)
  {
    forall i, j :: 0 <= i < j < |punches| ==> punches[i] != punches[j]
  }

  /** `load_json`: the card a record describes; the id is kept verbatim and the marks are not checked against the calendar. */
  function Decode(rec: Record): (c: CardState)
    ensures c.id == rec.id && c.year == rec.year && c.labelText == rec.labelText
    ensures forall x :: x in c.marks <==> x in rec.punches
  {
    CardState(rec.id, rec.year, rec.labelText, MarkSet(rec.punches))
  }

  /** `rec` is a record `to_json` can produce for `c`: same fields, each mark listed once, in any order. */
  predicate Encodes(rec: Record, c: CardState)
  {
    rec.id == c.id && rec.year == c.year && rec.labelText == c.labelText &&
    MarkSet(rec.punches) == c.marks && Distinct(rec.punches)
  }

  /** The fields `update_punchcard` replaces: year and label when supplied, nothing else. */
  function Patched(c: CardState, year: Option<int>, labelText: Option<string>): (r: CardState)
    ensures r.id == c.id && r.marks == c.marks
    ensures r.year == (if year.Some? then year.value else c.year)
    ensures r.labelText == (if labelText.Some? then labelText.value else c.labelText)
  {
    CardState(c.id,
              if year.Some? then year.value else c.year,
              if labelText.Some? then labelText.value else c.labelText,
              c.marks)
  }

  class Punchcard {
    var id: string
    var year: int
    var labelText: string
    var punched: set<Mark>

    function State(): CardState
      reads this
    {
      CardState(id, year, labelText, punched)
    }

    /** A fresh card with no marks; the caller supplies the identifier. */
    constructor (id: string, year: int, labelText: string)
      ensures State() == CardState(id, year, labelText, {})
    {
      this.id := id;
      this.year := year;
      this.labelText := labelText;
      this.punched := {};
    }

    /** `load_json`: a card rebuilt from a storage record. */
    constructor FromRecord(rec: Record)
      ensures State() == Decode(rec)
    {
      id := rec.id;
      year := rec.year;
      labelText := rec.labelText;
      punched := set x | x in rec.punches;
    }

    /**
     * Sets or clears the mark for (month, day) and returns the flag; an invalid
     * date is rejected and leaves the marks as they were.
     */
    method Punch(month: int, day: int, punch: bool) returns (r: Result<bool, DateError>)
      modifies this`punched
      ensures CheckDate(year, month, day).Some? ==>
                r == Err(CheckDate(year, month, day).value) && punched == old(punched)
      ensures CheckDate(year, month, day).None? ==>
                r == Ok(punch) && punched == Toggled(old(punched), (month, day), punch)
    {
      if month <= 0 || month > 12 {
        return Err(MonthOutOfRange(month));
      }
      if day <= 0 || day > DaysInMonth(year, month) {
        return Err(DayOutOfRange(month, day));
      }
      if punch {
        punched := punched + {(month, day)};
      } else {
        if (month, day) in punched {
          punched := punched - {(month, day)};
        }
      }
      return Ok(punch);
    }

    /** `punchgrid`: a header row of month names, then one row of twelve cells for each day 1..31. */
    method Grid() returns (grid: seq<seq<Cell>>)
      ensures |grid| == 32
      ensures |grid[0]| == 12 && forall c :: 0 <= c < 12 ==> grid[0][c] == Heading(MonthAbbrevs[c])
      ensures forall d :: 1 <= d < 32 ==> |grid[d]| == 12
      ensures forall d, c :: 1 <= d < 32 && 0 <= c < 12 ==> grid[d][c] == CellAt(year, punched, d, c + 1)
    {
      var header := [];
      for c := 0 to 12
        invariant |header| == c
        invariant forall k :: 0 <= k < c ==> header[k] == Heading(MonthAbbrevs[k])
      {
        header := header + [Heading(MonthAbbrevs[c])];
      }
      grid := [header];
      for day := 1 to 32
        invariant |grid| == day
        invariant grid[0] == header
        invariant forall d :: 1 <= d < day ==> |grid[d]| == 12
        invariant forall d, c :: 1 <= d < day && 0 <= c < 12 ==> grid[d][c] == CellAt(year, punched, d, c + 1)
      {
        var row := [];
        for month := 1 to 13
          invariant |row| == month - 1
          invariant forall c :: 0 <= c < |row| ==> row[c] == CellAt(year, punched, day, c + 1)
        {
          if day <= DaysInMonth(year, month) {
            row := row + [Slot(day, (month, day) in punched)];
          } else {
            row := row + [Slot(-1, false)];
          }
        }
        grid := grid + [row];
      }
    }

    /** `to_json`: the card's fields and its marks listed in set iteration order, which is left unspecified. */
    method ToRecord() returns (rec: Record)
      ensures Encodes(rec, State())
    {
      var pending := punched;
      var listed: seq<Mark> := [];
      while pending != {}
        invariant pending <= punched
        invariant forall x :: x in punched <==> x in pending || x in listed
        invariant forall x :: x in listed ==> x !in pending
        invariant Distinct(listed)
        decreases |pending|
      {
        var x :| x in pending;
        listed := listed + [x];
        pending := pending - {x};
      }
      rec := Record(id, year, labelText, listed);
    }

    /** The field patch of `update_punchcard`: year and label replaced when supplied; marks are not revalidated. */
    method Update(newYear: Option<int>, newLabelText: Option<string>)
      modifies this`year, this`labelText
      ensures State() == Patched(old(State()), newYear, newLabelText)
    {
      if newYear.Some? {
        year := newYear.value;
      }
      if newLabelText.Some? {
        labelText := newLabelText.value;
      }
    }
  }

  /** Punching is idempotent: a second identical punch changes nothing more. */
  lemma ToggleIdempotent(marks: set<Mark>, mark: Mark, punch: bool)
    ensures Toggled(Toggled(marks, mark, punch), mark, punch) == Toggled(marks, mark, punch)
  {
  }

  /** Setting a mark already present, or clearing one that is absent, leaves the set as it was. */
  lemma ToggleNoop(marks: set<Mark>, mark: Mark, punch: bool)
    requires (mark in marks) == punch
    ensures Toggled(marks, mark, punch) == marks
  {
  }

  /** A successful punch keeps every mark a real date of the card's year. */
  lemma PunchKeepsMarksValid(year: int, marks: set<Mark>, month: int, day: int, punch: bool)
    requires MarksValid(year, marks)
    requires CheckDate(year, month, day).None?
    ensures MarksValid(year, Toggled(marks, (month, day), punch))
  {
  }

  /** A grid cell reports a mark exactly when the mark is a real date of the year. */
  lemma GridShowsValidMarks(year: int, marks: set<Mark>)
    requires MarksValid(year, marks)
    ensures forall d, m :: 1 <= d <= 31 && 1 <= m <= 12 ==>
              (CellAt(year, marks, d, m).punched <==> (m, d) in marks)
  {
  }

  /**
   * Changing the year does not revalidate marks: a February 29th mark punched
   * in 2024 survives a patch to 2023 and is then drawn as a nonexistent date.
   */
  lemma YearPatchHidesMark(id: string, labelText: string)
    ensures MarksValid(2024, {(2, 29)})
    ensures Patched(CardState(id, 2024, labelText, {(2, 29)}), Some(2023), None).marks == {(2, 29)}
    ensures !MarksValid(2023, {(2, 29)})
    ensures CellAt(2023, {(2, 29)}, 29, 2) == Slot(-1, false)
  {
  }

  /** Round trip: decoding any record that `to_json` can produce gives back the card. */
  lemma RoundTrip(rec: Record, c: CardState)
    requires Encodes(rec, c)
    ensures Decode(rec) == c
  {
  }

  /** Decoding ignores the order of the pair list and any repeated pairs. */
  lemma DecodeIgnoresOrder(r1: Record, r2: Record)
    requires r1.id == r2.id && r1.year == r2.year && r1.labelText == r2.labelText
    requires forall x :: x in r1.punches <==> x in r2.punches
    ensures Decode(r1) == Decode(r2)
  {
  }

  /** A patch that supplies nothing leaves the card unchanged, and patching twice with the same fields is patching once. */
  lemma PatchLaws(c: CardState, year: Option<int>, labelText: Option<string>)
    ensures Patched(c, None, None) == c
    ensures Patched(Patched(c, year, labelText), year, labelText) == Patched(c, year, labelText)
  {
  }
}
