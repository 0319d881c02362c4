/** The database connection and cursor the wrapper sits in front of.
    The driver is opaque: its only observable effect is the log of calls
    made on it, and what a cursor reports after an execution is given by
    an oracle, `driver`, over that log. */
module Driver {
  import opened Values

  type Row = seq<Value>

  datatype Event =
    | Execute(stmt: Value, params: Option<Value>)   // params None: executed without parameters
    | Commit
    | Sync
    | Close

  /** What the cursor holds right after an execution: its row count, its
      last inserted row id, and the rows `fetchall` yields (None when
      `fetchall` raises, e.g. after a statement with no result set). */
  datatype Outcome = Outcome(rowcount: int, lastrowid: Value, rows: Option<seq<Row>>)

  class Connection {
    const driver: seq<Event> -> Outcome
    const canSync: bool
    const canClose: bool
    var log: seq<Event>

    constructor (driver: seq<Event> -> Outcome, canSync: bool, canClose: bool)
      ensures this.driver == driver && this.canSync == canSync && this.canClose == canClose
      ensures log == []
    {
      this.driver := driver;
      this.canSync := canSync;
      this.canClose := canClose;
      log := [];
    }

    method NewCursor() returns (c: Cursor)
      ensures fresh(c) && c.conn == this
    {
      c := new Cursor(this);
    }

    method Commit()
      modifies this
      ensures log == old(log) + [Event.Commit]
    {
      log := log + [Event.Commit];
    }

    method Sync()
      requires canSync
      modifies this
      ensures log == old(log) + [Event.Sync]
    {
      log := log + [Event.Sync];
    }

    method Close()
      requires canClose
      modifies this
      ensures log == old(log) + [Event.Close]
    {
      log := log + [Event.Close];
    }
  }

  class Cursor {
    const conn: Connection
    var rowcount: int
    var lastrowid: Value
    var pending: Option<seq<Row>>

    /** A cursor on which nothing has run yet reports the DB-API defaults. */
    constructor (conn: Connection)
      ensures this.conn == conn
      ensures rowcount == -1 && lastrowid == Null && pending == None
    {
      this.conn := conn;
      rowcount := -1;
      lastrowid := Null;
      pending := None;
    }

    method Execute(stmt: Value, params: Option<Value>)
      modifies this, conn
      ensures conn.log == old(conn.log) + [Event.Execute(stmt, params)]
      ensures rowcount == conn.driver(conn.log).rowcount
      ensures lastrowid == conn.driver(conn.log).lastrowid
      ensures pending == conn.driver(conn.log).rows
    {
      conn.log := conn.log + [Event.Execute(stmt, params)];
      var o := conn.driver(conn.log);
      rowcount, lastrowid, pending := o.rowcount, o.lastrowid, o.rows;
    }

    /** The cursor's state once the rows of an execution with outcome `o`
        have been fetched: its metadata stays, its rows are used up. */
    ghost predicate Drained(o: Outcome)
      reads this
    {
      rowcount == o.rowcount && lastrowid == o.lastrowid &&
      pending == if o.rows.Some? then Some([]) else None
    }

    /** Yields the remaining rows (None when fetching fails) and consumes them. */
    method FetchAll() returns (rows: Option<seq<Row>>)
      modifies this
      ensures rows == old(pending)
      ensures pending == if rows.Some? then Some([]) else None
      ensures rowcount == old(rowcount) && lastrowid == old(lastrowid)
    {
      rows := pending;
      if rows.Some? {
        pending := Some([]);
      }
    }
  }
}
