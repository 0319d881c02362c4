/** What one call of the dispatcher does to the connection's log and what
    it returns, as functions of its arguments and the log before the call. */
module Dispatch {
  import opened Values
  import opened Driver
  import opened ResultWrapper
  import opened Registry

  /** What `__call__` and `run` return: one result, or a list of results. */
  datatype Reply = One(result: Result) | Many(results: seq<Result>)

  /** The arguments with which `__call__` can walk its parameters. */
  predicate Dispatchable(value: Value, many: bool) {
    value.Null? || !many || Iterable(value)
  }

  /** One execution per batch item, in order. */
  function BatchExecutions(stmt: Value, items: seq<Value>): (es: seq<Event>)
    ensures |es| == |items|
    ensures forall i :: 0 <= i < |items| ==> es[i] == Execute(stmt, Some(Bind(items[i])))
  {
    if items == [] then [] else [Execute(stmt, Some(Bind(items[0])))] + BatchExecutions(stmt, items[1..])
  }

  /** The executions one call performs. */
  function Executions(stmt: Value, value: Value, many: bool): (es: seq<Event>)
    requires Dispatchable(value, many)
    ensures forall i :: 0 <= i < |es| ==> es[i].Execute? && es[i].stmt == stmt
    ensures value.Null? ==> es == [Execute(stmt, None)]
    ensures !value.Null? && !many ==> es == [Execute(stmt, Some(value))]
    ensures !value.Null? && many ==>
      |es| == |Items(value)| &&
      forall i :: 0 <= i < |es| ==> es[i].params == Some(Bind(Items(value)[i]))
  {
    if value.Null? then [Execute(stmt, None)]
    else if !many then [Execute(stmt, Some(value))]
    else BatchExecutions(stmt, Items(value))
  }

  /** Everything one call adds to the log: its executions, then a commit. */
  function CallLog(stmt: Value, value: Value, many: bool): seq<Event>
    requires Dispatchable(value, many)
  {
    Executions(stmt, value, many) + [Commit]
  }

  /** The results of a batch whose executions `es` follow the log `log0`:
      result i is the snapshot of the outcome right after execution i. */
  function BatchResults(driver: seq<Event> -> Outcome, log0: seq<Event>, es: seq<Event>): (rs: seq<Result>)
    ensures |rs| == |es|
    ensures forall i :: 0 <= i < |es| ==> rs[i] == Snapshot(driver(log0 + es[..i + 1]))
    decreases es
  {
    if es == [] then []
    else
      var rest := BatchResults(driver, log0 + [es[0]], es[1..]);
      assert es[..1] == [es[0]];
      assert forall i :: 0 < i < |es| ==> (log0 + [es[0]]) + es[1..][..i] == log0 + es[..i + 1] by {
        forall i | 0 < i < |es| ensures (log0 + [es[0]]) + es[1..][..i] == log0 + es[..i + 1] {
          assert es[..i + 1] == [es[0]] + es[1..][..i];
        }
      }
      [Snapshot(driver(log0 + [es[0]]))] + rest
  }

  /** What one call returns, given the database behaviour and the log
      before the call. */
  function Dispatched(driver: seq<Event> -> Outcome, log0: seq<Event>, stmt: Value, value: Value, many: bool): (reply: Reply)
    requires Dispatchable(value, many)
    // a non-batch call returns the one result taken after its one execution
    ensures value.Null? || !many ==>
      reply.One? && reply.result == Snapshot(driver(log0 + Executions(stmt, value, many)))
    // a batch returns one result per item, none filtered out, in item order
    ensures !value.Null? && many ==>
      reply.Many? && |reply.results| == |Items(value)| &&
      forall i :: 0 <= i < |Items(value)| ==>
        reply.results[i] == Snapshot(driver(log0 + Executions(stmt, value, many)[..i + 1]))
  {
    var es := Executions(stmt, value, many);
    if value.Null? || !many then One(Snapshot(driver(log0 + es)))
    else Many(BatchResults(driver, log0, es))
  }

  /** What `run(key, value, many)` adds to the log. */
  function RunLog(reg: Statements, key: Value, value: Value, many: bool): seq<Event>
    requires key !in reg || Dispatchable(value, many)
  {
    if key !in reg then [] else CallLog(reg[key], value, many)
  }

  /** What `close` adds to the log. */
  function ShutdownEvents(canSync: bool, canClose: bool): (es: seq<Event>)
    ensures |es| == 1 + (if canSync then 1 else 0) + (if canClose then 1 else 0)
    ensures es[0] == Commit
    ensures forall i :: 0 < i < |es| ==> es[i] != Commit
    ensures Sync in es <==> canSync
    ensures Close in es <==> canClose
    ensures forall i, j :: 0 <= i < j < |es| && es[i] == Close ==> es[j] != Sync
  {
    [Commit] + (if canSync then [Sync] else []) + (if canClose then [Close] else [])
  }

  /** The number of times `e` occurs in `log`. */
  function Count(log: seq<Event>, e: Event): nat {
    if log == [] then 0 else (if log[0] == e then 1 else 0) + Count(log[1..], e)
  }

  lemma {:induction false} CountAppend(a: seq<Event>, b: seq<Event>, e: Event)
    ensures Count(a + b, e) == Count(a, e) + Count(b, e)
  {
    if a == [] {
      assert a + b == b;
    } else {
      assert (a + b)[1..] == a[1..] + b;
      CountAppend(a[1..], b, e);
    }
  }

  lemma {:induction false} ExecutionsNeverCommit(es: seq<Event>)
    requires forall i :: 0 <= i < |es| ==> es[i].Execute?
    ensures Count(es, Commit) == 0
  {
    if es != [] {
      assert es[0].Execute?;
      ExecutionsNeverCommit(es[1..]);
    }
  }

  /** Every call commits exactly once, after all of its executions. */
  lemma CommitsOnceAfterExecutions(stmt: Value, value: Value, many: bool)
    requires Dispatchable(value, many)
    ensures var log := CallLog(stmt, value, many);
            Count(log, Commit) == 1 &&
            log[|log| - 1] == Commit &&
            forall i :: 0 <= i < |log| - 1 ==> log[i].Execute?
  {
    var es := Executions(stmt, value, many);
    ExecutionsNeverCommit(es);
    CountAppend(es, [Commit], Commit);
    assert Count([Commit], Commit) == 1 by {
      assert [Commit][1..] == [];
    }
  }

  /** A batch of n items logs n executions and one commit; the other
      shapes log one execution and one commit. */
  lemma CallLogLength(stmt: Value, value: Value, many: bool)
    requires Dispatchable(value, many)
    ensures |CallLog(stmt, value, many)| == (if value.Null? || !many then 1 else |Items(value)|) + 1
  {
  }

  /** `run` leaves the log alone exactly when the key is not registered. */
  lemma RunSilentIffMissing(reg: Statements, key: Value, value: Value, many: bool)
    requires key !in reg || Dispatchable(value, many)
    ensures RunLog(reg, key, value, many) == [] <==> key !in reg
    ensures key in reg ==> RunLog(reg, key, value, many) == CallLog(reg[key], value, many)
  {
  }

  /** After re-registering a key, `run` executes the newer text. */
  lemma RunUsesLatestText(reg: Statements, key: Value, text: string, value: Value, many: bool)
    requires !key.Null? && Dispatchable(value, many)
    ensures RunLog(Merge(reg, Plain(key), Str(text), map[]), key, value, many) == CallLog(Str(text), value, many)
  {
  }
}
