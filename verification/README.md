# browsable-durable-object: the `/query/raw` dispatcher and SQL adapter

A Dafny model of `BrowsableDurableObject` in `src/index.ts`: the `fetch`
dispatcher that answers `OPTIONS` and `POST` on `/query/raw` and hands every
other request to the base class's `fetch`, and the adapter
(`executeTransaction`, `executeQuery`, `executeRawQuery`) that runs SQL
statements in order against the instance's `SqlStorage` handle and shapes each
cursor into the raw `{columns, rows, meta}` record.

The SQL engine is not modelled: it is an arbitrary function from its state and
one `exec` call to a cursor or a thrown error, each with the state left behind
(`Engine.ExecFn`). `this.sql` being undefined is an absent handle. The base
class's `fetch` is an optional function from request to response. Everything
is pure: a call takes the engine state and returns the one it leaves.

Modules, in dependency order:

- `Options` (`options.dfy`): `Option`, with `OrElse` as the `??` operator.
- `Js` (`js.dfy`): JavaScript values and ToBoolean (section 7.1.2 of ECMA-262).
- `Engine` (`engine.dfy`): SQL values, cursors, the two call shapes `exec(sql)` and `exec(sql, ...bindings)`, engine steps.
- `Results` (`results.dfy`): the per-statement result, its JavaScript value, and a decoder that reads that value back.
- `Http` (`http.dfy`): headers, responses, `corsHeaders`, `corsPreflight`, `createResponse`.
- `Executor` (`executor.dfy`): `executeRawQuery`, `executeQuery`, `executeTransaction`, and the lemmas about statement order.
- `Dispatch` (`dispatch.dfy`): the request record, body normalisation, `fetch`, and the response each outcome resolves to.

The main result is `Executor.TransactionRunsInOrder`. `executeQuery` returns
either an object or an array, and the empty array `[]` it gives for a missing
cursor is truthy in JavaScript. So the `if (!result) return []` test in
`executeTransaction` can never fire. A transaction is exactly its statements
run one after another in input order, and a successful run has one result per
query.

## Model

| member | source | states |
|---|---|---|
| Http.JsonHeaderNames | src/index.ts:3-9 | the four CORS header names are pairwise different, and `Content-Type` is none of them, so adding it gives five distinct headers |
| Http.JsonHeaders | src/index.ts:34-37 | the spread `{...corsHeaders, 'Content-Type': 'application/json'}` keeps the four CORS headers first and unchanged, adds `Content-Type` last, and all five names are distinct |
| Http.CorsPreflight | src/index.ts:11-16 | the preflight is status 204 with a null body and exactly the four CORS headers: any origin, max-age 86400 |
| Http.NewResponse | src/index.ts:32-38 | `new Response(body, {status, headers})` throws a RangeError for a status outside 200-599 and a TypeError for a body on a null-body status (101, 103, 204, 205, 304); otherwise the response carries exactly the given status, headers and body |
| Http.CreateResponse | src/index.ts:27-39 | the response is built exactly when the status is in 200-599 and not a null-body status, since the JSON string body is never null; it throws a RangeError outside the range and a TypeError on 204, 205 and 304. When built, the envelope has exactly the members `result` and `error` (undefined or the string), the status is passed through, and the headers are the CORS headers followed by `Content-Type: application/json` |
| Results.Shape | src/index.ts:138-149 | raw mode copies the column names, every raw row in cursor order and both counters unchanged; object mode gives the keyed rows of `toArray()` |
| Results.Encode | src/index.ts:139-146 | a raw result is an object with exactly `columns`, `rows` and `meta`, an object-mode result is an array with one element per row, and neither is ever falsy |
| Results.DecodeEncode | src/index.ts:139-146 | reading the JavaScript value of any result back gives that result: column names, rows and cells in order, `rows_read`, `rows_written` and keyed rows are all preserved |
| Executor.RawCall | src/index.ts:117-121 | bindings are spread into the call exactly when the params list is present and non-empty, and in every case the engine's positional arguments are the list, with an absent list read as `[]` |
| Executor.ExecuteRawQuery | src/index.ts:106-128 | an absent handle yields no cursor and keeps the state; otherwise the engine's cursor is returned, or its error is rethrown unchanged, with the engine's new state |
| Executor.ExecuteQuery | src/index.ts:130-150 | the result is never falsy; an absent handle yields `[]` and keeps the state; otherwise the result is the shaped cursor or the engine's error, unchanged |
| Executor.ExecuteStatement | src/index.ts:89-93 | each query runs in raw mode with `params ?? []`: a success is a raw record copied from the engine's cursor, an error is the engine's |
| Executor.Collect | src/index.ts:88-103 | a loop that finishes has kept every earlier result as a prefix and pushed one result per remaining query |
| Executor.ExecuteTransaction | src/index.ts:82-104 | a successful transaction has exactly one result per query |
| Executor.RunInOrder | src/index.ts:88-101 | running the statements one after another, each in the state the previous left, gives one result per statement |
| Executor.CollectRunsInOrder | src/index.ts:95-100 | the loop with the falsy test equals the in-order run with the results so far in front |
| Executor.TransactionRunsInOrder | src/index.ts:82-104 | `executeTransaction` is exactly the in-order run: the early `return []` is unreachable |
| Executor.RunInOrderAppend | src/index.ts:88-101 | running `first + rest` runs `rest` in the state `first` left and appends its results after `first`'s |
| Executor.NthResult | src/index.ts:88-101 | the i-th result is the i-th statement's result in the state the first i statements left, after their i results |
| Executor.FirstError | src/index.ts:124-127 | a failed transaction is the error of some statement k, run after the first k succeeded, rethrown unchanged; the state keeps the effects of those k statements and of the failing one |
| Executor.NoHandleGivesEmptyResults | src/index.ts:130-136 | with no engine handle the transaction yields one `[]` per query and leaves the state unchanged |
| Dispatch.Queries | src/index.ts:65-68 | `transaction ?? [{sql, params}]`: a present transaction list is used as is; an absent one gives the single top-level statement; the list is empty only for an explicit empty transaction |
| Dispatch.Fetch | src/index.ts:49-80 | preflight exactly for `OPTIONS /query/raw`; the query runs exactly for `POST /query/raw`; every other (path, method) pair gets the base handler's response and resulting engine state verbatim, or 404 when there is no base handler; preflight and 404 leave the engine state untouched |
| Dispatch.NotFoundResponse | src/index.ts:79 | the last-resort response is status 404 with the text body "Not found" and no headers set by the code |
| Dispatch.Respond | src/index.ts:61-79 | a rejected run has no response; a delegated response is returned verbatim; preflight is 204 with no body and the CORS headers, the JSON answer 200, the fallback 404 "Not found" |
| Dispatch.PreflightAlways | src/index.ts:57-62 | `OPTIONS` on a supported path yields the 204 preflight with exactly the CORS headers and no body, whatever the base handler and engine are, and touches no state |
| Dispatch.JsonOkResponse | src/index.ts:64-70 | a successful POST answers 200 with body `{result: data, error: undefined}` and the CORS headers plus `Content-Type: application/json` |
| Dispatch.RawQueryAnswered | src/index.ts:64-71 | `POST /query/raw` runs the normalised list in order and answers one result per query, or rejects with the engine's error; the state is the one the run reached either way |
| Dispatch.FallThrough | src/index.ts:74-79 | any request not owned by the mixin, `GET /query/raw` included, gets the base handler's response unchanged even when it is a 404, together with the engine state that handler left; only with no base handler is it 404 "Not found", with the state unchanged |
| Dispatch.EmptyTransaction | src/index.ts:65-68 | `transaction: []` runs nothing and answers an empty list, with the state unchanged |
| Dispatch.NoEngineAnswersEmptyResults | src/index.ts:64-71 | with no engine handle, `POST /query/raw` answers one `[]` per normalised query |

## Dead code in `executeTransaction`

The `if (!result) return []` at src/index.ts:95-98 looks like a collapse of
the whole transaction when a statement yields no cursor. It cannot fire:
`executeQuery` returns either `[]` (line 136) or an object, and both are
truthy. With no engine handle each statement contributes its own `[]`
(`Executor.NoHandleGivesEmptyResults`).

## Left out

- The hosting runtime: the `DurableObject` base class, the constructor and `DurableObjectState`. The base class's `fetch` is an optional function of the request and the engine state that returns a response and a new state; its own asynchrony and rejections are not modelled.
- `Request`, `URL` and `request.json()`. A request is its pathname, its method and the already-decoded body fields. A body that fails to parse, or whose fields have other JavaScript types than those modelled (a non-array `transaction` or `params`, a null list element), is not represented.
- `JSON.stringify`. The response body is the value handed to it, so the `error: undefined` member, which serialisation drops, is still present in the model.
- Header name case-insensitivity, and the `Content-Type: text/plain` the runtime adds to the 404 string body. Headers are the ones the code sets, in order.
- The SQL engine and cursor internals. `raw()` and `toArray()` are independent fields of the cursor, and the counters are natural numbers given by the engine.
- JavaScript numbers are reals. NaN, infinities, -0 and double rounding are absent.
- `console.error` logging, and `async`/`await` suspension, which has no observable effect in a sequential model.
- A debug gateway or studio hook: src/index.ts has none.
