/** `examples/01-sql-database/src/db.ts`: a module-level connection pool that
    is opened on first use and cleared on close, parameterised queries, and
    a begin/commit/rollback wrapper.

    The `mssql` driver is abstract. Whether `sql.connect` fails on a given
    attempt, whether `pool.close()` fails for a given pool, and what a query
    returns are functions fixed when the `Database` is created. Pools are
    named by the number of the connection attempt that opened them, so a
    reconnect always yields a pool different from every earlier one. */
module SqlDb {
  import opened Wrappers

  /** The JavaScript values bound as query parameters or read from rows. */
  datatype Value = Num(n: real) | Str(s: string)

  /** A parameter object: its entries in the order `Object.entries`
      yields them. That is insertion order for the string keys the CRUD
      module passes; integer-like keys, which come first in ascending
      order in JavaScript, do not arise there. */
  type Params = seq<(string, Value)>

  /** A result row: column name to value. */
  type Row = map<string, Value>

  datatype QueryResult = QueryResult(recordset: seq<Row>, rowsAffected: seq<int>)

  /** The module's `pool` variable, the number of connection attempts so
      far, and the pools closed so far, in order. */
  datatype PoolState = PoolState(pool: Option<nat>, attempts: nat, closed: seq<nat>)

  /** Every pool named so far was opened by an earlier attempt. */
  predicate Valid(s: PoolState) {
    && (s.pool.Some? ==> s.pool.value < s.attempts)
    && (forall k | 0 <= k < |s.closed| :: s.closed[k] < s.attempts)
  }

  /** The new state and the outcome of an operation on the pool. */
  datatype Step<T> = Step(state: PoolState, result: Result<T>)

  /** `getPool` (lines 30-36): reuse the held pool; otherwise connect, and
      keep the new pool only when connecting succeeds. */
  function GetPoolStep(s: PoolState, connectError: nat -> Option<string>): Step<nat> {
    if s.pool.Some? then Step(s, Ok(s.pool.value))
    else match connectError(s.attempts)
      case None => Step(PoolState(Some(s.attempts), s.attempts + 1, s.closed), Ok(s.attempts))
      case Some(e) => Step(PoolState(None, s.attempts + 1, s.closed), Err(e))
  }

  /** `closePool` (lines 41-47): close and clear a held pool; nothing when
      none is held. If `close()` throws, the pool stays held. */
  function ClosePoolStep(s: PoolState, closeError: nat -> Option<string>): Step<()> {
    if s.pool.None? then Step(s, Ok(()))
    else match closeError(s.pool.value)
      case None => Step(PoolState(None, s.attempts, s.closed + [s.pool.value]), Ok(()))
      case Some(e) => Step(s, Err(e))
  }

  /** Both operations keep the state valid. */
  lemma PoolStepsKeepValid(s: PoolState, connectError: nat -> Option<string>, closeError: nat -> Option<string>)
    requires Valid(s)
    ensures Valid(GetPoolStep(s, connectError).state)
    ensures Valid(ClosePoolStep(s, closeError).state)
  {
  }

  /** A successful `getPool` leaves a pool held; calling it again connects
      no more and returns the same pool. */
  lemma GetPoolTwice(s: PoolState, connectError: nat -> Option<string>)
    requires GetPoolStep(s, connectError).result.Ok?
    ensures var first := GetPoolStep(s, connectError);
      first.state.pool == Some(first.result.value)
      && GetPoolStep(first.state, connectError) == first
  {
  }

  /** `getPool` connects exactly when no pool is held. */
  lemma GetPoolConnectsOnlyWhenEmpty(s: PoolState, connectError: nat -> Option<string>)
    ensures GetPoolStep(s, connectError).state.attempts == if s.pool.None? then s.attempts + 1 else s.attempts
  {
  }

  /** With no pool held, `closePool` changes nothing. */
  lemma CloseWithoutPool(s: PoolState, closeError: nat -> Option<string>)
    requires s.pool.None?
    ensures ClosePoolStep(s, closeError) == Step(s, Ok(()))
  {
  }

  /** After a successful `closePool`, the next `getPool` opens a new
      connection, and the pool it returns is none of the pools used
      before. */
  lemma CloseThenReconnect(s: PoolState, connectError: nat -> Option<string>, closeError: nat -> Option<string>)
    requires Valid(s) && s.pool.Some?
    requires ClosePoolStep(s, closeError).result.Ok?
    requires GetPoolStep(ClosePoolStep(s, closeError).state, connectError).result.Ok?
    ensures var closed := ClosePoolStep(s, closeError).state;
      var reopened := GetPoolStep(closed, connectError);
      && closed.pool.None?
      && reopened.state.attempts == s.attempts + 1
      && reopened.result.value != s.pool.value
      && reopened.result.value !in closed.closed
  {
  }

  /** A request's bound inputs, in the order `input` was called. */
  class Request {
    var inputs: Params

    constructor()
      ensures inputs == []
    {
      inputs := [];
    }

    /** `request.input(key, value)`. */
    method Input(key: string, value: Value)
      modifies this
      ensures inputs == old(inputs) + [(key, value)]
    {
      inputs := inputs + [(key, value)];
    }
  }

  /** What `query` sent: the pool, the SQL text and the bound inputs. */
  datatype Execution = Execution(pool: nat, sqlText: string, inputs: Params)

  /** The inputs `query` binds: the entries of `params`, none when omitted. */
  function Bound(params: Option<Params>): Params {
    if params.None? then [] else params.value
  }

  /** What one `query` call does to the pool, what it sends and what it
      returns. */
  datatype QueryRun = QueryRun(state: PoolState, sent: seq<Execution>, result: Result<QueryResult>)

  function QuerySpec(s: PoolState, connectError: nat -> Option<string>,
                     execute: (string, Params) -> Result<QueryResult>,
                     sqlText: string, inputs: Params): QueryRun {
    var g := GetPoolStep(s, connectError);
    if g.result.Err? then QueryRun(g.state, [], Err(g.result.error))
    else QueryRun(g.state, [Execution(g.result.value, sqlText, inputs)], execute(sqlText, inputs))
  }

  /** A query sends at most one statement, on the pool `getPool` returned,
      and a failing `getPool` sends nothing and is what the query throws. */
  lemma QuerySendsOnce(s: PoolState, connectError: nat -> Option<string>,
                       execute: (string, Params) -> Result<QueryResult>, sqlText: string, inputs: Params)
    ensures var q := QuerySpec(s, connectError, execute, sqlText, inputs);
      var g := GetPoolStep(s, connectError);
      && q.state == g.state
      && (g.result.Ok? <==> |q.sent| == 1)
      && (g.result.Ok? ==> q.sent[0].pool == g.result.value && q.sent[0].inputs == inputs)
      && (g.result.Err? ==> q.sent == [] && q.result == Err(g.result.error))
  {
  }

  /** The module state of `db.ts` together with the driver's behaviour. */
  class Database {
    var pool: Option<nat>
    var attempts: nat
    var closed: seq<nat>
    var executed: seq<Execution>
    const connectError: nat -> Option<string>
    const closeError: nat -> Option<string>
    const execute: (string, Params) -> Result<QueryResult>

    function State(): PoolState
      reads this
    {
      PoolState(pool, attempts, closed)
    }

    constructor(connectError: nat -> Option<string>, closeError: nat -> Option<string>,
                execute: (string, Params) -> Result<QueryResult>)
      ensures State() == PoolState(None, 0, []) && Valid(State()) && executed == []
      ensures this.connectError == connectError && this.closeError == closeError && this.execute == execute
    {
      pool, attempts, closed, executed := None, 0, [], [];
      this.connectError, this.closeError, this.execute := connectError, closeError, execute;
    }

    method GetPool() returns (r: Result<nat>)
      modifies this
      ensures Step(State(), r) == GetPoolStep(old(State()), connectError)
      ensures executed == old(executed)
    {
      if pool.None? {
        var failure := connectError(attempts);
        if failure.Some? {
          attempts := attempts + 1;
          return Err(failure.value);
        }
        pool := Some(attempts);
        attempts := attempts + 1;
      }
      return Ok(pool.value);
    }

    method ClosePool() returns (r: Result<()>)
      modifies this
      ensures Step(State(), r) == ClosePoolStep(old(State()), closeError)
      ensures executed == old(executed)
    {
      if pool.Some? {
        var failure := closeError(pool.value);
        if failure.Some? {
          return Err(failure.value);
        }
        closed := closed + [pool.value];
        pool := None;
      }
      return Ok(());
    }

    /** `query` (lines 52-67): get the pool, bind every entry of `params`
        once under its own key, in order, and run the text. A failing
        `getPool` sends nothing. */
    method Query(sqlText: string, params: Option<Params>) returns (r: Result<QueryResult>)
      modifies this
      ensures var q := QuerySpec(old(State()), connectError, execute, sqlText, Bound(params));
        State() == q.state && executed == old(executed) + q.sent && r == q.result
    {
      var got := GetPool();
      if got.Err? {
        return Err(got.error);
      }
      ghost var afterGet := State();
      var request := new Request();
      if params.Some? {
        var entries := params.value;
        var i := 0;
        while i < |entries|
          invariant 0 <= i <= |entries|
          invariant request.inputs == entries[..i]
          invariant State() == afterGet && executed == old(executed)
        {
          request.Input(entries[i].0, entries[i].1);
          i := i + 1;
        }
        assert entries[..i] == entries;
      }
      executed := executed + [Execution(got.value, sqlText, request.inputs)];
      r := execute(sqlText, request.inputs);
    }
  }

  // ---------------------------------------------------------------------
  // `transaction` (lines 72-87). The operations run between `begin` and
  // `commit`; the outcome of every driver call is an input.

  datatype TxCall = Begin | RunOperations | Commit | Rollback

  /** The calls made and the outcome. */
  datatype TxRun<T> = TxRun(calls: seq<TxCall>, result: Result<T>)

  /** The catch block: roll back, then rethrow the caught error; a failing
      rollback throws its own error instead. */
  function RollBack<T>(calls: seq<TxCall>, caught: string, rollbackError: Option<string>): TxRun<T> {
    TxRun(calls + [Rollback], if rollbackError.Some? then Err(rollbackError.value) else Err(caught))
  }

  /** `getPool` runs before the `try`, so its failure rolls nothing back. */
  function Transaction<T>(pool: Result<nat>, beginError: Option<string>, operations: Result<T>,
                          commitError: Option<string>, rollbackError: Option<string>): TxRun<T> {
    if pool.Err? then TxRun([], Err(pool.error))
    else if beginError.Some? then RollBack([Begin], beginError.value, rollbackError)
    else if operations.Err? then RollBack([Begin, RunOperations], operations.error, rollbackError)
    else if commitError.Some? then RollBack([Begin, RunOperations, Commit], commitError.value, rollbackError)
    else TxRun([Begin, RunOperations, Commit], Ok(operations.value))
  }

  /** The transaction succeeds exactly when the pool, `begin`, the
      operations and `commit` all succeed, and then yields the operations'
      result; the operations run only after a successful `begin`. */
  lemma TransactionSucceedsIff<T>(pool: Result<nat>, beginError: Option<string>, operations: Result<T>,
                                  commitError: Option<string>, rollbackError: Option<string>)
    ensures var run := Transaction(pool, beginError, operations, commitError, rollbackError);
      && (run.result.Ok? <==> pool.Ok? && beginError.None? && operations.Ok? && commitError.None?)
      && (run.result.Ok? ==> run.result.value == operations.value && Rollback !in run.calls)
      && (RunOperations in run.calls <==> pool.Ok? && beginError.None?)
      && (Commit in run.calls ==> operations.Ok?)
  {
  }

  /** Any failure of `begin`, the operations or `commit` ends in exactly
      one rollback, after which the first error is rethrown unchanged
      unless the rollback itself fails. */
  lemma TransactionFailureRollsBack<T>(pool: Result<nat>, beginError: Option<string>, operations: Result<T>,
                                       commitError: Option<string>, rollbackError: Option<string>)
    requires pool.Ok? && (beginError.Some? || operations.Err? || commitError.Some?)
    ensures var run := Transaction(pool, beginError, operations, commitError, rollbackError);
      var first := if beginError.Some? then beginError.value
                   else if operations.Err? then operations.error
                   else commitError.value;
      && run.calls[0] == Begin && run.calls[|run.calls| - 1] == Rollback
      && (forall k | 0 <= k < |run.calls| - 1 :: run.calls[k] != Rollback)
      && run.result == Err(if rollbackError.Some? then rollbackError.value else first)
  {
  }
}
