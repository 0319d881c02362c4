# Decibel, modelled in Dafny

Decibel is a thin wrapper around a DB-API style database connection. It
keeps a registry of named SQL statements and runs raw or registered
statements on one cursor. A statement runs once without parameters, once
with parameters, or once per item of a batch. Every call commits exactly
once. Each execution is returned as a `Result`: the fetched rows plus the
cursor's `rowcount` and `lastrowid`. `close` commits, then syncs and closes
the connection when the connection supports those operations.

The model sits in six modules:

- `Values` (values.dfy): the Python values that pass through the wrapper.
  `Null` stands for Python's `None`. A tuple, list or string can be iterated
  (`Items`). `Bind` is the rule that turns one batch item into the
  parameters it is bound with.
- `Driver` (driver.dfy): the opaque connection and cursor. A `Connection`
  keeps a log of the calls made on it: `Execute(stmt, params)`, `Commit`,
  `Sync`, `Close`. The database's behaviour is a fixed oracle, `driver`. It
  maps the log so far to the outcome of the latest execution: row count,
  last row id, and the rows `fetchall` returns, or `None` when `fetchall`
  raises. Whether the connection has `sync` and `close` is two booleans.
- `ResultWrapper` (result.dfy): the `Result` value and `Capture`, which
  models `Result.__init__`. The `rowcount` and `lastrowid` properties are the
  datatype's fields.
- `Registry` (registry.dfy): the statement map and the merge rules of `reg`.
- `Dispatch` (dispatch.dfy): pure specifications. They give what one call
  adds to the log and what it returns, as functions of the arguments and of
  the log before the call. The lemmas about them (one commit after all
  executions, `run` on a missing key, last write wins) live here too.
- `Decibel` (decibel.dfy): the `Decibel` class. It holds the connection, its
  cursor and the registry. Its methods `Call` (`__call__`), `Reg`, `Run` and
  `Close` are proved against the `Dispatch` and `Registry` functions. Two
  client methods at the end work through concrete uses: a three-item batch
  insert through a registered statement, and shutting down a connection
  that has no sync and no close.

Two behaviours of the code are easy to miss:

- Registry entries that come from a dict or from keywords are stored
  whatever their type. Only the single `stid`/`stmt` form checks that the
  text is a string.
- In batch mode, a string `value` is iterated character by character, so
  each character becomes its own one-element parameter tuple. `Items` and
  `Bind` model this.

## Model

| member | source | states |
|---|---|---|
| `Values.Bind` | decibel.py:97-100 | a batch item is always bound as a tuple or list; a tuple or list is bound unchanged, and any other value is bound as the one-element tuple holding it |
| `Values.Items` | decibel.py:96-97 | the items a batch walks: a tuple's or list's elements in order, or a string's characters as one-character strings |
| `ResultWrapper.Capture` | decibel.py:20-33 | the result records the cursor's row count and last row id as they were before fetching; its rows are what `fetchall` yields, or none when fetching fails; given the assumed DB-API `fetchall` (see Left out), the cursor keeps its metadata and its rows are used up |
| `Registry.KeywordPairs` | decibel.py:124 | every keyword argument becomes a pair under its name as a string key, and no other key appears |
| `Registry.Merge` | decibel.py:117-124 | the keys afterwards are the old keys plus the keys mentioned, so none is removed; keyword pairs win every clash; a dict `stid` contributes each of its pairs; a non-None id is registered only with a string `stmt`; keys nobody mentions keep their text |
| `Registry.ReRegisterOverwrites` | decibel.py:118-122 | registering an id a second time replaces its text and adds no key |
| `Dispatch.BatchExecutions` | decibel.py:96-101 | a batch performs exactly one execution per item, with nothing filtered out; execution i runs the statement with the binding of item i |
| `Dispatch.Executions` | decibel.py:86-101 | every execution runs the given statement; with `value` None there is one execution with no parameters; otherwise, when not batching, one execution with `value`; when batching, one per item in order |
| `Dispatch.BatchResults` | decibel.py:96-101 | a batch returns one result per execution, and result i is the snapshot of the database's outcome right after execution i and before execution i+1 |
| `Dispatch.Dispatched` | decibel.py:76-104 | a non-batch call returns the single result taken after its one execution; a batch returns as many results as there are items, in item order, where result i is taken right after execution i |
| `Dispatch.CommitsOnceAfterExecutions` | decibel.py:87-104 | whatever the branch, the log of one call holds exactly one commit; it is the last entry, and every entry before it is an execution |
| `Dispatch.CallLogLength` | decibel.py:87-103 | a call adds one execution and one commit to the log, or, for a batch of n items, n executions and one commit |
| `Dispatch.RunSilentIffMissing` | decibel.py:135-139 | `run` adds nothing to the log exactly when the key is not registered; for a registered key it adds what `__call__` adds for the registered text |
| `Dispatch.RunUsesLatestText` | decibel.py:118-139 | after an id is re-registered with a new text, `run` on that id executes the new text |
| `Dispatch.ShutdownEvents` | decibel.py:141-155 | close logs a commit first and no other commit; a sync appears exactly when the connection can sync, a close exactly when it can close, and no sync comes after the close |
| `Decibel.Decibel.constructor` | decibel.py:57-66 | the cursor is freshly opened on the given connection; the registry is the given dict, or empty when the argument is not a dict; nothing is logged |
| `Decibel.Decibel.Call` | decibel.py:76-104 | the log grows by exactly the call's executions followed by one commit; the reply is the `Dispatched` reply for the log before the call; the cursor is left as its last execution left it, or untouched by an empty batch |
| `Decibel.Decibel.Reg` | decibel.py:109-124 | the registry afterwards is `Merge` of the old registry with the arguments |
| `Decibel.Decibel.Run` | decibel.py:126-139 | for a missing key the reply is an empty list and the connection and cursor are untouched; for a present key the reply, log and cursor are exactly those of `__call__` with the registered text |
| `Decibel.Decibel.Close` | decibel.py:141-155 | the log grows by exactly `ShutdownEvents` for the connection's capabilities: commit, then sync if supported, then close if supported |

## Left out

- `__getattr__` (decibel.py:68-74): forwarding unknown attributes to the connection is Python dynamic dispatch and has no counterpart in the model.
- What the driver does. SQL execution, the meaning of `rowcount` and `lastrowid`, and the rows a query yields are given by the oracle `Connection.driver` over the call log. The model contains no database.
- `Cursor.FetchAll` is assumed to behave as DB-API cursors do: it leaves `rowcount` and `lastrowid` unchanged and uses up the pending rows. This is an assumption about the driver, not something decibel.py does. The cursor state that `Capture` and `Call` promise after fetching rests on it.
- Exceptions raised by `cursor.execute`, and the loss of earlier batch results that they cause. Every execution is taken to succeed. A failing `fetchall` is represented as a `None` outcome, not as an exception.
- Decibel.Decibel.Call: a batch over a value that cannot be iterated, such as an integer, raises `TypeError` in Python. The model instead requires the value to be iterable (`Dispatchable`) whenever the batch branch is taken.
- Decibel.Decibel.Run: for a registered key, the same iterability requirement as `Call` applies.
- Unhashable registry keys (`key in dict` raising `TypeError` for a list key) are not modelled. Any value may be a key.
- Python's cross-type key equality is not modelled. In Python `True == 1` and `False == 0` hash alike, so they name one dict key, and so do containers of them such as `(True,)` and `(1,)`. The model compares keys by `Value` equality, so `Bool(true)` and `Int(1)` are two different registry keys. The source documents statement ids as strings, and strings compare the same way in both.
- `hasattr` duck typing: the `sync` and `close` capabilities are two fixed booleans on the connection.
- Aliasing. The dict passed to the constructor is shared with the caller, so later `reg` calls also change the caller's dict. The model copies the map by value.
- `Result` extends Python's `list`, so its rows could be changed after construction. The wrapper itself never changes them, and the model treats a result as an immutable value.
- Bind values and batch items are limited to None, booleans, integers, strings, tuples and lists. Dicts (named-style parameters), floats, bytes, sets and generators are not modelled as parameters or batch items. A dict is modelled only as the `statements` or `stid` argument (`Mapping`).
- Concurrency: the source has none.
