/**
 * The `punchcards` table as an in-memory map from card id to row.
 * The `year` and `label` columns sit beside the stored record (the blob), which
 * is what loading reads back.
 */
module Store {
  import opened Wrappers
  import opened Punchcards

  /** One table row: the `year` and `label` columns and the stored record. */
  datatype Row = Row(year: int, labelText: string, blob: Record)

  type Rows = map<string, Row>

  /**
   * `save`'s insert-or-update keyed by id. A new id gets all three columns;
   * an existing id gets a new label and blob, while its `year` column keeps its old value.
   */
  function Upsert(rows: Rows, id: string, year: int, labelText: string, blob: Record): (r: Rows)
    ensures r.Keys == rows.Keys + {id}
    ensures id !in rows ==> r[id] == Row(year, labelText, blob)
    ensures id in rows ==> r[id] == Row(rows[id].year, labelText, blob)
    ensures forall k :: k in rows && k != id ==> r[k] == rows[k]
  {
    var keptYear := if id in rows then rows[id].year else year;
    rows[id := Row(keptYear, labelText, blob)]
  }

  /** Delete by id; an id that is not present is not an error. */
  function Deleted(rows: Rows, id: string): (r: Rows)
    ensures r.Keys == rows.Keys - {id}
    ensures forall k :: k in r ==> r[k] == rows[k]
  {
    rows - {id}
  }

  /** What `get_db` hands back for an id: the card decoded from the blob alone, or nothing when no row matches. */
  function LoadState(rows: Rows, id: string): (r: Option<CardState>)
    ensures r.Some? <==> id in rows
    ensures r.Some? ==> r.value.id == rows[id].blob.id && r.value.year == rows[id].blob.year
  {
    if id in rows then Some(Decode(rows[id].blob)) else None
  }

  /** The ids a listing for `year` selects: a filter on the `year` column. */
  function IdsOfYear(rows: Rows, year: int): (ids: set<string>)
    ensures forall id :: id in ids <==> id in rows && rows[id].year == year
  {
    set id | id in rows && rows[id].year == year
  }

  /** Every row's blob carries the key it is stored under. */
  predicate KeysMatch(rows: Rows)
  {
    forall k :: k in rows ==> rows[k].blob.id == k
  }

  /** Saving a card and loading it by its id gives back the same card. */
  lemma SaveThenLoad(rows: Rows, rec: Record, c: CardState)
    requires Encodes(rec, c)
    ensures LoadState(Upsert(rows, c.id, c.year, c.labelText, rec), c.id) == Some(c)
  {
  }

  /** Saving twice with the same fields is saving once. */
  lemma SaveIdempotent(rows: Rows, id: string, year: int, labelText: string, blob: Record)
    ensures Upsert(Upsert(rows, id, year, labelText, blob), id, year, labelText, blob)
         == Upsert(rows, id, year, labelText, blob)
  {
  }

  /** Saving a new card and then deleting it restores the table. */
  lemma SaveThenDelete(rows: Rows, id: string, year: int, labelText: string, blob: Record)
    requires id !in rows
    ensures Deleted(Upsert(rows, id, year, labelText, blob), id) == rows
  {
  }

  /** After a delete, loading that id finds nothing; deleting an absent id changes nothing. */
  lemma DeleteLaws(rows: Rows, id: string)
    ensures LoadState(Deleted(rows, id), id) == None
    ensures id !in rows ==> Deleted(rows, id) == rows
  {
  }

  /**
   * Re-saving a card under a new year leaves its row listed under the old
   * year, even though loading it yields the new year.
   */
  lemma StaleYearColumn(rows: Rows, rec: Record, c: CardState)
    requires c.id in rows && rows[c.id].year != c.year
    requires Encodes(rec, c)
    ensures var after := Upsert(rows, c.id, c.year, c.labelText, rec);
            c.id in IdsOfYear(after, rows[c.id].year) &&
            c.id !in IdsOfYear(after, c.year) &&
            LoadState(after, c.id) == Some(c)
  {
  }

  /** Saving preserves the match between keys and the ids inside the blobs. */
  lemma SaveKeepsKeysMatch(rows: Rows, rec: Record, c: CardState)
    requires KeysMatch(rows) && Encodes(rec, c)
    ensures KeysMatch(Upsert(rows, c.id, c.year, c.labelText, rec))
  {
  }

  class Database {
    var rows: Rows

    predicate Valid()
      reads this
    {
      KeysMatch(rows)
    }

    /** An empty table. */
    constructor ()
      ensures Valid() && rows == map[]
    {
      rows := map[];
    }

    /** `save`: upsert the card's row, the blob being the card's record. */
    method Save(card: Punchcard)
      requires Valid()
      modifies this
      ensures Valid()
      ensures card.id in rows && Encodes(rows[card.id].blob, card.State())
      ensures rows == Upsert(old(rows), card.id, card.year, card.labelText, rows[card.id].blob)
    {
      var rec := card.ToRecord();
      SaveKeepsKeysMatch(rows, rec, card.State());
      rows := Upsert(rows, card.id, card.year, card.labelText, rec);
    }

    /** `get_db`: a fresh card decoded from the row's blob, or nothing when the id has no row. */
    method Load(id: string) returns (card: Option<Punchcard>)
      ensures card.None? <==> id !in rows
      ensures card.Some? ==> fresh(card.value) && Some(card.value.State()) == LoadState(rows, id)
    {
      if id !in rows {
        return None;
      }
      var c := new Punchcard.FromRecord(rows[id].blob);
      return Some(c);
    }

    /** Delete the row with this id, if any. */
    method Delete(id: string)
      requires Valid()
      modifies this
      ensures Valid() && rows == Deleted(old(rows), id)
    {
      rows := Deleted(rows, id);
    }

    /**
     * `update_punchcard`: load the card, replace the supplied fields, save it.
     * Reports whether the id was found; an unknown id leaves the table alone.
     */
    method Update(id: string, newYear: Option<int>, newLabelText: Option<string>) returns (found: bool)
      requires Valid()
      modifies this
      ensures Valid()
      ensures found <==> id in old(rows)
      ensures !found ==> rows == old(rows)
      ensures found ==>
                rows.Keys == old(rows).Keys &&
                rows[id].year == old(rows)[id].year &&
                LoadState(rows, id) == Some(Patched(Decode(old(rows)[id].blob), newYear, newLabelText)) &&
                rows[id].labelText == Patched(Decode(old(rows)[id].blob), newYear, newLabelText).labelText &&
                forall k :: k in rows && k != id ==> rows[k] == old(rows)[k]
    {
      var loaded := Load(id);
      if loaded.None? {
        return false;
      }
      var card := loaded.value;
      card.Update(newYear, newLabelText);
      ghost var patched := card.State();
      Save(card);
      RoundTrip(rows[id].blob, patched);
      return true;
    }
  }

  /** A card created, punched, saved, reloaded and deleted, following the contracts above. */
  method EndToEndScenario()
  {
    var db := new Database();
    var card := new Punchcard("card-1", 2024, "reading");
    var r := card.Punch(2, 5, true);
    assert r == Ok(true);
    db.Save(card);
    var loaded := db.Load("card-1");
    assert loaded.Some? && loaded.value.punched == {(2, 5)};
    var bad := loaded.value.Punch(2, 30, true);
    assert bad == Err(DayOutOfRange(2, 30)) && loaded.value.punched == {(2, 5)};
    db.Delete("card-1");
    var gone := db.Load("card-1");
    assert gone.None?;
  }
}
