/** The wrapper object: a connection, the one cursor it opened on it, and
    the statement registry. */
module Decibel {
  import opened Values
  import opened Driver
  import opened ResultWrapper
  import opened Registry
  import opened Dispatch

  class Decibel {
    const database: Connection
    const cursor: Cursor
    var statements: Statements

    /** The cursor is the one opened on the held connection. */
    ghost predicate Valid() {
      cursor.conn == database
    }

    /** Keeps `statements` when it is a dict and starts empty otherwise. */
    constructor (database: Connection, statements: StatementsArg)
      ensures Valid() && this.database == database && fresh(cursor)
      ensures statements.Mapping? ==> this.statements == statements.m
      ensures statements.Plain? ==> this.statements == map[]
      ensures unchanged(database)
    {
      var c := database.NewCursor();
      this.database := database;
      cursor := c;
      this.statements := Initial(statements);
    }

    /** `__call__`: runs `statement` once without parameters, once with
        `value`, or once per item of `value`, then commits once. */
    method Call(statement: Value, value: Value, many: bool) returns (reply: Reply)
      requires Valid()
      requires Dispatchable(value, many)
      modifies database, cursor
      ensures database.log == old(database.log) + CallLog(statement, value, many)
      ensures reply == Dispatched(database.driver, old(database.log), statement, value, many)
      // the cursor is left as the last execution left it, or untouched by an empty batch
      ensures var es := Executions(statement, value, many);
              if es == [] then unchanged(cursor)
              else cursor.Drained(database.driver(old(database.log) + es))
    {
      ghost var log0 := database.log;
      ghost var es := Executions(statement, value, many);
      if value.Null? {
        cursor.Execute(statement, None);
        var r := Capture(cursor);
        reply := One(r);
      } else if !many {
        cursor.Execute(statement, Some(value));
        var r := Capture(cursor);
        reply := One(r);
      } else {
        var items := Items(value);
        var results: seq<Result> := [];
        var i := 0;
        while i < |items|
          invariant 0 <= i <= |items|
          invariant database.log == log0 + es[..i]
          invariant |results| == i
          invariant forall j :: 0 <= j < i ==> results[j] == Snapshot(database.driver(log0 + es[..j + 1]))
          invariant i == 0 ==> unchanged(cursor)
          invariant i > 0 ==> cursor.Drained(database.driver(log0 + es[..i]))
        {
          cursor.Execute(statement, Some(Bind(items[i])));
          assert es[..i + 1] == es[..i] + [es[i]];
          var r := Capture(cursor);
          results := results + [r];
          i := i + 1;
        }
        assert es[..|es|] == es;
        reply := Many(results);
      }
      database.Commit();
    }

    /** `reg`: merges a dict, a single id with its text, and keyword pairs
        into the registry, in that order. */
    method Reg(stid: StatementsArg, stmt: Value, kwargs: map<string, Value>)
      modifies this
      ensures statements == Merge(old(statements), stid, stmt, kwargs)
    {
      if !(stid.Plain? && stid.v.Null?) {
        if stid.Mapping? {
          statements := statements + stid.m;
        } else if stmt.Str? {
          statements := statements + map[stid.v := stmt];
        }
      }
      statements := statements + KeywordPairs(kwargs);
    }

    /** `run`: an unregistered key yields an empty list and touches nothing;
        a registered one is dispatched exactly as `__call__` would be. */
    method Run(key: Value, value: Value, many: bool) returns (reply: Reply)
      requires Valid()
      requires key !in statements || Dispatchable(value, many)
      modifies database, cursor
      ensures key !in statements ==> reply == Many([]) && unchanged(database) && unchanged(cursor)
      ensures key in statements ==>
        reply == Dispatched(database.driver, old(database.log), statements[key], value, many)
      ensures database.log == old(database.log) + RunLog(statements, key, value, many)
      ensures key in statements ==>
        var es := Executions(statements[key], value, many);
        if es == [] then unchanged(cursor)
        else cursor.Drained(database.driver(old(database.log) + es))
    {
      if key !in statements {
        return Many([]);
      }
      var statement := statements[key];
      reply := Call(statement, value, many);
    }

    /** `close`: commits, then syncs and closes where the connection can. */
    method Close()
      requires Valid()
      modifies database
      ensures database.log == old(database.log) + ShutdownEvents(database.canSync, database.canClose)
    {
      database.Commit();
      if database.canSync {
        database.Sync();
      }
      if database.canClose {
        database.Close();
      }
    }
  }

  /** A caller's view: a batch insert of three items through a registered
      statement gives three results, each reporting one row, and one commit. */
  method InsertBatchScenario()
  {
    var insert := Str("INSERT INTO t(v) VALUES (?)");
    var items := List([Int(1), Int(2), Int(3)]);
    var conn := new Connection(log => Outcome(1, Null, None), false, false);
    var db := new Decibel(conn, Mapping(map[Str("ins") := insert]));
    var reply := db.Run(Str("ins"), items, true);
    assert conn.log == CallLog(insert, items, true);
    assert Items(items) == [Int(1), Int(2), Int(3)];
    assert reply.Many? && |reply.results| == 3;
    assert forall i :: 0 <= i < 3 ==> reply.results[i].rowcount == 1 && reply.results[i].rows == [];
    CommitsOnceAfterExecutions(insert, items, true);
    assert Count(conn.log, Commit) == 1;
  }

  /** Shutting down a connection that can neither sync nor close still commits. */
  method BareShutdownScenario()
  {
    var conn := new Connection(log => Outcome(-1, Null, None), false, false);
    var db := new Decibel(conn, Plain(Null));
    db.Close();
    assert conn.log == [Commit];
  }
}
