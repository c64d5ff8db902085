# Punchcard, modelled in Dafny

A punchcard is a habit-tracking card for one calendar year: it has an opaque id,
a year, a free-text label and an unordered set of punched (month, day) marks.
This project models the `Punchcard` class of `punchcard/main.py` and what sits
beside it:

- `calendar.dfy` (module `Calendar`): the proleptic Gregorian leap rule and month
  lengths that `calendar.monthrange` supplies.
- `punchcard.dfy` (module `Punchcards`): the card as a class with mutable `id`,
  `year`, `labelText` and `punched` fields; `punch` (set or clear one mark after
  checking the date), `punchgrid` (the 32-row grid), `to_json`/`load_json` at the
  level of a `Record` value, and the field patch of `update_punchcard`.
- `store.dfy` (module `Store`): the `punchcards` table as a map from id to a
  `Row(year, labelText, blob)`, with `save`'s upsert, `get_db`, delete by id,
  the update handler's load-patch-save, and the year filter used for listing.
- `auth.dfy` (module `Auth`): the HTTP Basic decision of `auth`.
- `wrappers.dfy` (module `Wrappers`): `Option` and `Result`.

`label` is a Dafny keyword, so the source's label field is called `labelText`.
Exceptions become values: `punch`'s `IndexError` is `Err(DateError)`, `get_db` on
an unknown id yields `None`, and `auth`'s outcomes are `Granted`, `Unauthorized`
(the 401) and `ServerError` (the `TypeError` that `compare_digest` raises).

## Behaviour worth knowing

- The grid has 12 day columns per row, one per month.
- `save`'s `ON CONFLICT` clause rewrites only `label` and `punches`, so an existing
  row keeps its old `year` column while the blob carries the new year. Loading reads
  the blob, but listing filters on the column: `Store.StaleYearColumn` shows a card
  whose year was patched still being listed under its old year.
- Loading an unknown id is not a clean "not found": `fetchone()` returns `None`
  and subscripting it raises. The model reports it as `None` / `found == false`
  and leaves the table untouched, which is what the raised error amounts to.
- The only authentication is HTTP Basic against two environment variables,
  `PUNCHCARD_USERNAME` and `PUNCHCARD_PASSWORD`.
- `auth` crashes (rather than answering 401) when one variable is set to a non-empty
  value and the other is unset, because `compare_digest` raises `TypeError` for an
  unset setting. When at least one variable is set to a non-empty value, it also
  crashes when either compared string holds non-ASCII characters. A variable set to
  `""` counts as unconfigured for the "neither is configured" test, yet it is still
  compared, so a request must then present the empty string. `Auth.Authenticate`
  models all of these.

## Model

| member | source | states |
|---|---|---|
| `Calendar.DaysInMonth` | punchcard/main.py:85 | month lengths lie in 28..31; 29 exactly for February of a leap year, 28 for February otherwise, 30 for April, June, September, November, 31 for the rest |
| `Calendar.YearLength` | punchcard/main.py:85 | the twelve month lengths sum to 366 in a leap year and 365 otherwise |
| `Calendar.FebruaryDays` | punchcard/main.py:85-86 | February 29th is a valid date exactly in leap years; the 30th and 31st never are |
| `Calendar.LeapExamples` | punchcard/main.py:85-86 | 2024-02-29 and 2000-02-29 are valid, 2023-02-29 and 1900-02-29 are not |
| `Punchcards.CheckDate` | punchcard/main.py:83-86 | a date is refused exactly when it does not exist in the card's year; a bad month is reported before any day check, otherwise the day is reported |
| `Punchcards.Toggled` | punchcard/main.py:87-91 | after punching, the mark is present exactly when the flag is set; every other mark keeps its membership |
| `Punchcards.CellAt` | punchcard/main.py:99-102 | a cell is `(-1, false)` exactly for a nonexistent date, otherwise it carries the day; it shows punched only for a real date whose mark is in the set |
| `Punchcards.MarkSet` | punchcard/main.py:73 | the rebuilt set holds exactly the pairs that occur in the list |
| `Punchcards.Decode` | punchcard/main.py:68-74 | a loaded card keeps the record's id verbatim, its year and label, and holds exactly the listed marks, with no calendar check |
| `Punchcards.Patched` | punchcard/main.py:222-225 | a supplied year or label replaces the old one, an omitted one is kept; id and marks never change |
| `Punchcards.Punchcard.constructor` | punchcard/main.py:61-65 | a new card has the given id, year and label and no marks |
| `Punchcards.Punchcard.FromRecord` | punchcard/main.py:67-74 | the card built from a record is that record decoded |
| `Punchcards.Punchcard.Punch` | punchcard/main.py:82-92 | an invalid date returns its error and leaves the marks unchanged; a valid one returns the flag and sets or clears exactly that mark; id, year and label never change |
| `Punchcards.Punchcard.Grid` | punchcard/main.py:94-104 | 32 rows: a header of the twelve month abbreviations in calendar order, then for each day 1..31 twelve cells, each the day's cell for that month; the card is not modified |
| `Punchcards.Punchcard.ToRecord` | punchcard/main.py:106-112 | the record carries the card's id, year and label and lists every mark exactly once, in some order |
| `Punchcards.Punchcard.Update` | punchcard/main.py:222-225 | the card afterwards is the patch of the old card by the supplied fields |
| `Punchcards.ToggleIdempotent` | punchcard/main.py:87-88 | punching the same mark with the same flag twice gives the same set as once |
| `Punchcards.ToggleNoop` | punchcard/main.py:87-91 | setting a present mark or clearing an absent one leaves the set unchanged |
| `Punchcards.PunchKeepsMarksValid` | punchcard/main.py:83-92 | if every mark is a real date of the year, it stays so after an accepted punch |
| `Punchcards.GridShowsValidMarks` | punchcard/main.py:99-102 | on a card whose marks are real dates, a cell shows punched exactly when its mark is in the set |
| `Punchcards.YearPatchHidesMark` | punchcard/main.py:222-225 | patching a card from 2024 to 2023 keeps its February 29th mark, which is then invalid and drawn as `(-1, false)` |
| `Punchcards.RoundTrip` | punchcard/main.py:68-74 | decoding any record that `to_json` can produce for a card gives back that card: id, year, label and mark set |
| `Punchcards.DecodeIgnoresOrder` | punchcard/main.py:73 | two records listing the same pairs, in any order and with any repeats, decode to the same card |
| `Punchcards.PatchLaws` | punchcard/main.py:222-225 | an empty patch is the identity and a patch applied twice equals it applied once |
| `Store.Upsert` | punchcard/main.py:114-124 | the saved id is present afterwards; a new id gets the card's year, label and blob; an existing id keeps its year column and gets the new label and blob; other rows are unchanged |
| `Store.Deleted` | punchcard/main.py:209 | exactly the given id is gone; every other row is unchanged |
| `Store.LoadState` | punchcard/main.py:77-80 | a load succeeds exactly when the id has a row and takes id and year from the blob, not from the columns |
| `Store.IdsOfYear` | punchcard/main.py:171 | a listing for a year selects exactly the rows whose year column equals it |
| `Store.SaveThenLoad` | punchcard/main.py:114-124 | loading a card by id right after saving it returns the same card |
| `Store.SaveIdempotent` | punchcard/main.py:117 | saving the same card twice leaves the table as saving it once |
| `Store.SaveThenDelete` | punchcard/main.py:209 | deleting a card just inserted restores the table |
| `Store.DeleteLaws` | punchcard/main.py:209 | a deleted id no longer loads; deleting an absent id changes nothing |
| `Store.StaleYearColumn` | punchcard/main.py:117 | re-saving a card under a new year leaves it listed under the old year while it loads with the new year |
| `Store.SaveKeepsKeysMatch` | punchcard/main.py:117-118 | saving keeps every row's blob id equal to the key it is stored under |
| `Store.Database.constructor` | punchcard/main.py:55-57 | a fresh table is empty |
| `Store.Database.Save` | punchcard/main.py:114-124 | the table afterwards is the upsert of the card's id, year and label with a blob that encodes the card |
| `Store.Database.Load` | punchcard/main.py:77-80 | an unknown id yields nothing; a known one yields a fresh card equal to the decoded blob |
| `Store.Database.Delete` | punchcard/main.py:209 | the table afterwards is the old one without that id |
| `Store.Database.Update` | punchcard/main.py:218-227 | an unknown id changes nothing; a known one keeps its year column and all other rows, gets the patched label column, and loads as the patched card |
| `Auth.CompareDigest` | punchcard/main.py:140-141 | the comparison raises exactly when the setting is unset or a string is not ASCII, and otherwise reports equality |
| `Auth.Authenticate` | punchcard/main.py:135-148 | neither setting configured lets everything through; otherwise access is granted exactly when both username and password match, and the request crashes exactly when a comparison raises |
| `Auth.FailureHidesField` | punchcard/main.py:142-147 | a wrong username, a wrong password, or both give the same `Unauthorized` outcome |
| `Auth.OneSettingUnset` | punchcard/main.py:138-141 | with one setting non-empty and the other unset, every request crashes |
| `Auth.EmptySettingIsCompared` | punchcard/main.py:138-147 | a variable set to the empty string is unconfigured for the bypass test yet still compared: alone it grants every request, beside a configured username it requires an empty password |

## Left out

- FastAPI routing, request bodies, templates, `to_template_var`, redirects and the robots page: framework plumbing; only the update handler's load-patch-save is modelled (`Store.Database.Update`).
- The SQLite connection, its commit/rollback and the SQL text: the table is an in-memory map, and each method is one all-or-nothing step.
- Listing: only the filter on the `year` column is modelled (`Store.IdsOfYear`); the `ORDER BY` orderings, the distinct-years query and the choice of the latest year are database behaviour.
- `date.today()`: the clock is not part of the model.
- The rate limiter: an external library.
- `uuid.uuid4()`: the id is a parameter of the constructor.
- JSON text: records are the `Record` datatype, so `json.dumps`/`json.loads` and the tuple-to-list conversion they perform are not modelled.
- The constant-time behaviour of `secrets.compare_digest`: a timing property; the comparison is modelled as equality plus its `TypeError` cases.
- HTTP Basic's own rejection of a request without credentials happens in the framework before `auth` runs.
- Calendar.DaysInMonth: requires a month in 1..12 instead of modelling `IllegalMonthError`, because `punch` checks the month first and `punchgrid` only asks for months 1..12. Any integer year is accepted, as in Python 3.8 and later.
- Default arguments: `Punchcard`'s `label=''` and `punch`'s `punch=True` are ordinary required parameters here, because every call site in `punchcard/main.py` passes both values.
- Store.Database.Update: the update handler's `get_db` and `save` run in two separate `with db()` transactions, so a delete between them lets the upsert re-insert the card; the model performs load, patch and save as one step and does not capture that interleaving (concurrent requests are not modelled).
