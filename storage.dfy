/**
 * The `search_history` table: rows are only ever appended, each with the next
 * auto-increment id, the two place texts and the insertion time.  The SQLite
 * connection is not modelled; the clock that fills `timestamp` is the `now`
 * parameter of `Insert`.
 */
module Storage {

  datatype SearchRecord = SearchRecord(id: nat, fromLoc: string, toLoc: string, timestamp: int)

  class SearchHistory {
    var rows: seq<SearchRecord>

    /** AUTOINCREMENT without deletions: the i-th row has id i + 1. */
    ghost predicate Valid()
      reads this
    {
      forall i :: 0 <= i < |rows| ==> rows[i].id == i + 1
    }

    constructor ()
      ensures Valid() && rows == []
    {
      rows := [];
    }

    /** `INSERT INTO search_history (from_loc, to_loc) VALUES (?, ?)`. */
    method Insert(fromLoc: string, toLoc: string, now: int)
      requires Valid()
      modifies this
      ensures Valid()
      ensures rows == old(rows) + [SearchRecord(|old(rows)| + 1, fromLoc, toLoc, now)]
    {
      rows := rows + [SearchRecord(|rows| + 1, fromLoc, toLoc, now)];
    }
  }
}
