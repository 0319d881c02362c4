/** The result wrapper: the rows of one execution together with the
    cursor's row count and last row id at the time it was taken. */
module ResultWrapper {
  import opened Values
  import opened Driver

  datatype Result = Result(rows: seq<Row>, rowcount: int, lastrowid: Value)

  /** The rows a result holds: what `fetchall` gave, or none if it failed. */
  function RowsOrEmpty(fetched: Option<seq<Row>>): seq<Row> {
    match fetched
    case Some(rows) => rows
    case None => []
  }

  /** The result taken right after an execution whose outcome is `o`. */
  function Snapshot(o: Outcome): Result {
    Result(RowsOrEmpty(o.rows), o.rowcount, o.lastrowid)
  }

  /** `Result(cursor)`: row count and last row id are read before the rows
      are fetched, and a failing fetch degrades to no rows. */
  method Capture(cursor: Cursor) returns (r: Result)
    modifies cursor
    ensures r.rowcount == old(cursor.rowcount) && r.lastrowid == old(cursor.lastrowid)
    ensures old(cursor.pending).Some? ==> r.rows == old(cursor.pending).value
    ensures old(cursor.pending).None? ==> r.rows == []
    ensures r == Snapshot(Outcome(old(cursor.rowcount), old(cursor.lastrowid), old(cursor.pending)))
    ensures cursor.Drained(Outcome(old(cursor.rowcount), old(cursor.lastrowid), old(cursor.pending)))
  {
    var rowcount := cursor.rowcount;
    var lastrowid := cursor.lastrowid;
    var fetched := cursor.FetchAll();
    var rows: seq<Row> := [];
    if fetched.Some? {
      rows := fetched.value;
    }
    r := Result(rows, rowcount, lastrowid);
  }
}
