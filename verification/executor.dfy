/** `executeRawQuery`, `executeQuery` and `executeTransaction`: statements run
    strictly in order against an engine handle that may be absent, each
    threading the engine state to the next. */
module Executor {
  import opened Options
  import opened Js
  import opened Engine
  import opened Results

  /** One entry of the query list, `{sql, params?}`; a field that is absent or
      null is Nothing. */
  datatype Statement = Statement(sql: Option<string>, params: Option<seq<SqlValue>>)

  /** How an awaited call settles: a value, or a thrown engine error. Both
      carry the engine state left behind, since nothing here rolls it back. */
  datatype Run<+T, S> =
    | Done(value: T, state: S)
    | Threw(error: EngineError, state: S)

  /** The call made for `params`: bindings are spread into the call only when
      the list is present and non-empty. Either way the engine receives the
      list as its positional arguments, with an absent list read as `[]`. */
  function RawCall(sql: Option<string>, params: Option<seq<SqlValue>>): (c: Call)
    ensures c.sql == sql
    ensures c.ExecWith? <==> params.Some? && |params.value| > 0
    ensures Arguments(c) == params.OrElse([])
  {
    if params.Some? && |params.value| > 0 then ExecWith(sql, params.value) else Exec(sql)
  }

  /** `executeRawQuery`: no handle gives no cursor and leaves the state alone;
      otherwise the engine's cursor or error is passed on unchanged. */
  function ExecuteRawQuery<S>(handle: Option<ExecFn<S>>, s: S, sql: Option<string>, params: Option<seq<SqlValue>>)
    : (r: Run<Option<Cursor>, S>)
    ensures handle.Nothing? ==> r == Done(Nothing, s)
    ensures handle.Some? ==>
      var step := handle.value(s, RawCall(sql, params));
      && r.state == step.state
      && (r.Done? <==> step.Produced?)
      && (r.Done? ==> r.value == Some(step.cursor))
      && (r.Threw? ==> r.error == step.error)
  {
    match handle
    case Nothing => Done(Nothing, s)
    case Some(exec) =>
      match exec(s, RawCall(sql, params))
      case Produced(cursor, s') => Done(Some(cursor), s')
      case Raised(e, s') => Threw(e, s')
  }

  /** `executeQuery`: `[]` when there is no cursor, otherwise the cursor shaped
      for the requested mode. What it returns is never falsy. */
  function ExecuteQuery<S>(handle: Option<ExecFn<S>>, s: S, sql: Option<string>, params: Option<seq<SqlValue>>, isRaw: bool)
    : (r: Run<QueryResult, S>)
    ensures r.Done? ==> Truthy(Encode(r.value))
    ensures handle.Nothing? ==> r == Done(NoResult, s)
    ensures handle.Some? ==>
      var step := handle.value(s, RawCall(sql, params));
      && r.state == step.state
      && (r.Done? <==> step.Produced?)
      && (r.Done? ==> r.value == Shape(step.cursor, isRaw))
      && (r.Threw? ==> r.error == step.error)
  {
    match ExecuteRawQuery(handle, s, sql, params)
    case Threw(e, s') => Threw(e, s')
    case Done(cursor, s') =>
      if cursor.Nothing? then Done(NoResult, s')
      else Done(Shape(cursor.value, isRaw), s')
  }

  /** One iteration of the transaction loop: raw mode, `params ?? []`. */
  function ExecuteStatement<S>(handle: Option<ExecFn<S>>, s: S, q: Statement): (r: Run<QueryResult, S>)
    ensures r.Done? ==> Truthy(Encode(r.value))
    ensures handle.Nothing? ==> r == Done(NoResult, s)
    ensures handle.Some? ==>
      var step := handle.value(s, RawCall(q.sql, Some(q.params.OrElse([]))));
      && r.state == step.state
      && (r.Done? <==> step.Produced?)
      && (r.Done? ==> r.value.Raw? && r.value.columns == step.cursor.columnNames
                      && r.value.rows == step.cursor.raw
                      && r.value.meta == Meta(step.cursor.rowsRead, step.cursor.rowsWritten))
      && (r.Threw? ==> r.error == step.error)
  {
    ExecuteQuery(handle, s, q.sql, Some(q.params.OrElse([])), true)
  }

  /** The `for ... of` loop of `executeTransaction`, from the query at hand
      on, with the results pushed so far. */
  function Collect<S>(handle: Option<ExecFn<S>>, s: S, queries: seq<Statement>, results: seq<QueryResult>)
    : (r: Run<seq<QueryResult>, S>)
    ensures r.Done? ==> |r.value| == |results| + |queries| && r.value[..|results|] == results
    decreases |queries|
  {
    if queries == [] then Done(results, s)
    else
      match ExecuteStatement(handle, s, queries[0])
      case Threw(e, s') => Threw(e, s')
      case Done(result, s') =>
        if !Truthy(Encode(result)) then Done([], s')
        else
          var r := Collect(handle, s', queries[1..], results + [result]);
          assert r.Done? ==> r.value[..|results|] == r.value[..|results| + 1][..|results|];
          r
  }

  /** `executeTransaction({queries})`. Because no statement result is falsy,
      the early `return []` never fires: a successful run has exactly one
      result per query. */
  function ExecuteTransaction<S>(handle: Option<ExecFn<S>>, s: S, queries: seq<Statement>)
    : (r: Run<seq<QueryResult>, S>)
    ensures r.Done? ==> |r.value| == |queries|
  {
    Collect(handle, s, queries, [])
  }

  // ---------------------------------------------------------------------
  // Reference: the statements run one after another, no falsy test
  // ---------------------------------------------------------------------

  function Prepend<S>(prefix: seq<QueryResult>, r: Run<seq<QueryResult>, S>): Run<seq<QueryResult>, S> {
    match r
    case Done(vs, s) => Done(prefix + vs, s)
    case Threw(e, s) => Threw(e, s)
  }

  /** Runs the statements in order, each in the state the previous one left,
      stopping at the first error. */
  function RunInOrder<S>(handle: Option<ExecFn<S>>, s: S, queries: seq<Statement>): (r: Run<seq<QueryResult>, S>)
    ensures r.Done? ==> |r.value| == |queries|
    decreases |queries|
  {
    if queries == [] then Done([], s)
    else
      match ExecuteStatement(handle, s, queries[0])
      case Threw(e, s') => Threw(e, s')
      case Done(v, s') => Prepend([v], RunInOrder(handle, s', queries[1..]))
  }

  /** Runs `rest` after a run that settled, keeping what it produced. */
  function Then<S>(first: Run<seq<QueryResult>, S>, handle: Option<ExecFn<S>>, rest: seq<Statement>): Run<seq<QueryResult>, S> {
    match first
    case Threw(e, s) => Threw(e, s)
    case Done(vs, s) => Prepend(vs, RunInOrder(handle, s, rest))
  }

  /** One turn of the loop: a statement that succeeds is pushed, since its
      result is truthy. */
  lemma CollectStep<S>(handle: Option<ExecFn<S>>, s: S, queries: seq<Statement>, results: seq<QueryResult>)
    requires queries != [] && ExecuteStatement(handle, s, queries[0]).Done?
    ensures var step := ExecuteStatement(handle, s, queries[0]);
      Collect(handle, s, queries, results) == Collect(handle, step.state, queries[1..], results + [step.value])
  {}

  lemma PrependTwice<S>(results: seq<QueryResult>, v: QueryResult, r: Run<seq<QueryResult>, S>)
    ensures Prepend(results + [v], r) == Prepend(results, Prepend([v], r))
  {
    if r.Done? {
      assert results + [v] + r.value == results + ([v] + r.value);
    }
  }

  lemma {:induction false} CollectRunsInOrder<S>(handle: Option<ExecFn<S>>, s: S, queries: seq<Statement>, results: seq<QueryResult>)
    ensures Collect(handle, s, queries, results) == Prepend(results, RunInOrder(handle, s, queries))
    decreases |queries|
  {
    if queries == [] {
      assert results + [] == results;
    } else {
      var step := ExecuteStatement(handle, s, queries[0]);
      if step.Done? {
        CollectStep(handle, s, queries, results);
        CollectRunsInOrder(handle, step.state, queries[1..], results + [step.value]);
        PrependTwice(results, step.value, RunInOrder(handle, step.state, queries[1..]));
      }
    }
  }

  /** The `if (!result) return []` collapse is dead code: the transaction is
      exactly the statements run in order. */
  lemma TransactionRunsInOrder<S>(handle: Option<ExecFn<S>>, s: S, queries: seq<Statement>)
    ensures ExecuteTransaction(handle, s, queries) == RunInOrder(handle, s, queries)
  {
    CollectRunsInOrder(handle, s, queries, []);
    match RunInOrder(handle, s, queries)
    case Threw(_, _) =>
    case Done(vs, _) => assert [] + vs == vs;
  }

  lemma ThenAfterPrepend<S>(v: QueryResult, r: Run<seq<QueryResult>, S>, handle: Option<ExecFn<S>>, rest: seq<Statement>)
    ensures Then(Prepend([v], r), handle, rest) == Prepend([v], Then(r, handle, rest))
  {
    if r.Done? {
      var tail := RunInOrder(handle, r.state, rest);
      if tail.Done? {
        assert [v] + r.value + tail.value == [v] + (r.value + tail.value);
      }
    }
  }

  /** Sequential composition: the second part of a batch runs in the state
      the first part left, and its results follow the first part's. */
  lemma {:induction false} RunInOrderAppend<S>(handle: Option<ExecFn<S>>, s: S, first: seq<Statement>, rest: seq<Statement>)
    ensures RunInOrder(handle, s, first + rest) == Then(RunInOrder(handle, s, first), handle, rest)
    decreases |first|
  {
    if first == [] {
      assert first + rest == rest;
      var r := RunInOrder(handle, s, rest);
      if r.Done? {
        assert [] + r.value == r.value;
      }
    } else {
      var all := first + rest;
      assert all[0] == first[0] && all[1..] == first[1..] + rest;
      var step := ExecuteStatement(handle, s, first[0]);
      if step.Done? {
        RunInOrderAppend(handle, step.state, first[1..], rest);
        ThenAfterPrepend(step.value, RunInOrder(handle, step.state, first[1..]), handle, rest);
      }
    }
  }

  /** The i-th result is what the i-th statement returns when run in the
      state the first i statements left; the first i results precede it. */
  lemma NthResult<S>(handle: Option<ExecFn<S>>, s: S, queries: seq<Statement>, i: nat)
    requires RunInOrder(handle, s, queries).Done?
    requires i < |queries|
    ensures var before := RunInOrder(handle, s, queries[..i]);
      && before.Done?
      && before.value == RunInOrder(handle, s, queries).value[..i]
      && ExecuteStatement(handle, before.state, queries[i]).Done?
      && ExecuteStatement(handle, before.state, queries[i]).value == RunInOrder(handle, s, queries).value[i]
  {
    var first, rest := queries[..i], queries[i..];
    assert first + rest == queries;
    RunInOrderAppend(handle, s, first, rest);
    var before := RunInOrder(handle, s, first);
    assert rest[0] == queries[i];
    var after := RunInOrder(handle, before.state, rest);
    assert |before.value| == i;
    assert RunInOrder(handle, s, queries).value == before.value + after.value;
  }

  /** An error aborts the batch: it is the error the k-th statement raised,
      in the state the first k statements left, rethrown unchanged and with
      their effects on the engine kept. */
  lemma {:induction false} FirstError<S>(handle: Option<ExecFn<S>>, s: S, queries: seq<Statement>) returns (k: nat)
    requires RunInOrder(handle, s, queries).Threw?
    ensures k < |queries|
    ensures var before := RunInOrder(handle, s, queries[..k]);
      && before.Done?
      && ExecuteStatement(handle, before.state, queries[k])
         == Threw(RunInOrder(handle, s, queries).error, RunInOrder(handle, s, queries).state)
    decreases |queries|
  {
    assert queries != [];
    match ExecuteStatement(handle, s, queries[0])
    case Threw(e, s') =>
      k := 0;
      assert queries[..0] == [];
    case Done(v, s') =>
      var k' := FirstError(handle, s', queries[1..]);
      k := k' + 1;
      var pre := queries[..k];
      assert pre[0] == queries[0] && pre[1..] == queries[1..][..k'];
      assert queries[1..][k'] == queries[k];
  }

  /** `n` copies of the `[]` result. */
  function NoResults(n: nat): seq<QueryResult> {
    if n == 0 then [] else [NoResult] + NoResults(n - 1)
  }

  lemma {:induction false} NoHandleRunsEmpty<S>(s: S, queries: seq<Statement>)
    ensures RunInOrder(Nothing, s, queries) == Done(NoResults(|queries|), s)
    decreases |queries|
  {
    if queries != [] {
      assert ExecuteStatement(Nothing, s, queries[0]) == Done(NoResult, s);
      NoHandleRunsEmpty(s, queries[1..]);
      assert RunInOrder(Nothing, s, queries) == Prepend([NoResult], Done(NoResults(|queries| - 1), s));
    }
  }

  /** With no engine handle every statement yields `[]` and the state is
      untouched: the result is one `[]` per query. */
  lemma NoHandleGivesEmptyResults<S>(s: S, queries: seq<Statement>)
    ensures ExecuteTransaction(Nothing, s, queries) == Done(NoResults(|queries|), s)
  {
    TransactionRunsInOrder(Nothing, s, queries);
    NoHandleRunsEmpty(s, queries);
  }
}
