/** `BrowsableDurableObject.fetch`: the route table of the mixin, the POST
    body normalisation, and the fall-through to the base class's `fetch`. */
module Dispatch {
  import opened Options
  import opened Js
  import opened Engine
  import opened Results
  import opened Http
  import opened Executor

  /** The decoded JSON body; each field is Nothing when absent or null. */
  datatype RequestBody = RequestBody(
    sql: Option<string>,
    params: Option<seq<SqlValue>>,
    transaction: Option<seq<Statement>>)

  /** A request as the dispatcher sees it: the URL's pathname, the HTTP
      method (`verb`), and the body it decodes on `POST /query/raw`. */
  datatype Request = Request(path: string, verb: string, body: RequestBody)

  /** The base class's `fetch`, when it has one. It runs on the same object,
      so it may read and change the engine state too. */
  type Handler<!S> = (Request, S) -> (Response, S)

  const RawQueryRoute: string := "/query/raw"

  /** The allow-list of paths the mixin looks at. */
  const SupportedRoutes: seq<string> := [RawQueryRoute]

  datatype Outcome =
    | Preflight                       // `corsPreflight()`
    | JsonOk(data: seq<QueryResult>)  // `createResponse(data, undefined, 200)`
    | Delegated(response: Response)   // `super.fetch(request)`
    | NotFound                        // 404 "Not found"
    | Failed(error: EngineError)      // the returned promise rejects

  /** `transaction ?? [{sql, params}]`: a transaction list that is present is
      taken as is, even when empty. */
  function Queries(body: RequestBody): (qs: seq<Statement>)
    ensures body.transaction.Some? ==> qs == body.transaction.value
    ensures body.transaction.Nothing? ==> qs == [Statement(body.sql, body.params)]
    ensures qs == [] <==> body.transaction == Some([])
  {
    body.transaction.OrElse([Statement(body.sql, body.params)])
  }

  /** The (path, verb) pairs the mixin answers itself; every other request
      is the base handler's. */
  predicate Owned(path: string, verb: string) {
    (path, verb) in {(RawQueryRoute, "OPTIONS"), (RawQueryRoute, "POST")}
  }

  /** `fetch(request)`, with the engine state it leaves behind. */
  function Fetch<S>(req: Request, base: Option<Handler<S>>, handle: Option<ExecFn<S>>, s: S): (r: (Outcome, S))
    ensures r.0.Preflight? <==> req.path == RawQueryRoute && req.verb == "OPTIONS"
    ensures r.0.JsonOk? || r.0.Failed? <==> req.path == RawQueryRoute && req.verb == "POST"
    ensures r.0.Delegated? || r.0.NotFound? <==> !Owned(req.path, req.verb)
    ensures r.0.Delegated? ==> base.Some? && (r.0.response, r.1) == base.value(req, s)
    ensures r.0.NotFound? ==> base.Nothing?
    ensures r.0.Preflight? || r.0.NotFound? ==> r.1 == s
  {
    if req.path in SupportedRoutes && req.verb == "OPTIONS" then
      (Preflight, s)
    else if req.path in SupportedRoutes && req.path == RawQueryRoute && req.verb == "POST" then
      match ExecuteTransaction(handle, s, Queries(req.body))
      case Done(data, s') => (JsonOk(data), s')
      case Threw(e, s') => (Failed(e), s')
    else if base.Some? then
      var (response, s') := base.value(req, s);
      (Delegated(response), s')
    else
      (NotFound, s)
  }

  /** `new Response('Not found', {status: 404})` */
  function NotFoundResponse(): (r: Response)
    ensures r.status == 404 && r.body == Text("Not found") && r.headers == []
  {
    NewResponse(Text("Not found"), 404, []).response
  }

  /** The response an outcome resolves to; a rejected promise has none. */
  function Respond(o: Outcome): (r: Option<Response>)
    ensures r.Nothing? <==> o.Failed?
    ensures o.Delegated? ==> r == Some(o.response)
    ensures o.Preflight? ==> r.value.status == 204 && r.value.body == NoBody && r.value.headers == CorsHeaders
    ensures o.JsonOk? ==> r.value.status == 200 && r.value.body.Json?
    ensures o.NotFound? ==> r.value.status == 404 && r.value.body == Text("Not found")
  {
    match o
    case Preflight => Some(CorsPreflight())
    case JsonOk(data) => Some(CreateResponse(Array(EncodeAll(data, Encode)), Nothing, 200).response)
    case Delegated(response) => Some(response)
    case NotFound => Some(NotFoundResponse())
    case Failed(_) => Nothing
  }

  /** `OPTIONS` on a supported path is answered with the preflight whatever
      the base handler and the engine are, and touches no state. */
  lemma PreflightAlways<S>(req: Request, base: Option<Handler<S>>, handle: Option<ExecFn<S>>, s: S)
    requires req.path in SupportedRoutes && req.verb == "OPTIONS"
    ensures var r := Fetch(req, base, handle, s);
      && r.1 == s
      && Respond(r.0) == Some(CorsPreflight())
      && Respond(r.0).value.status == 204
      && Respond(r.0).value.body == NoBody
      && Respond(r.0).value.headers == CorsHeaders
  {}

  /** The response to a successful run: 200, the envelope
      `{result: data, error: undefined}`, the CORS headers and JSON. */
  lemma JsonOkResponse(data: seq<QueryResult>)
    ensures var resp := Respond(JsonOk(data)).value;
      && resp.status == 200
      && resp.headers == CorsHeaders + [Header(ContentType, ApplicationJson)]
      && resp.body == Json(Object(map["result" := Array(EncodeAll(data, Encode)), "error" := Undefined]))
  {
    var resp := CreateResponse(Array(EncodeAll(data, Encode)), Nothing, 200).response;
    assert resp.body.json.fields == map["result" := Array(EncodeAll(data, Encode)), "error" := Undefined];
  }

  /** `POST /query/raw` runs the normalised query list in order and answers
      200 with one result per query in the JSON envelope; an engine error
      rejects instead, keeping the state it reached. */
  lemma RawQueryAnswered<S>(req: Request, base: Option<Handler<S>>, handle: Option<ExecFn<S>>, s: S)
    requires req.path == RawQueryRoute && req.verb == "POST"
    ensures var run := RunInOrder(handle, s, Queries(req.body));
            var r := Fetch(req, base, handle, s);
      && r.1 == run.state
      && (run.Threw? ==> r.0 == Failed(run.error) && Respond(r.0).Nothing?)
      && (run.Done? ==> r.0 == JsonOk(run.value) && |run.value| == |Queries(req.body)|)
  {
    TransactionRunsInOrder(handle, s, Queries(req.body));
  }

  /** A request the mixin does not own, `GET /query/raw` included, gets the
      base handler's response verbatim, whatever its status, and the engine
      state that handler left; only without a base handler is it 404
      "Not found", with the state untouched. */
  lemma FallThrough<S>(req: Request, base: Option<Handler<S>>, handle: Option<ExecFn<S>>, s: S)
    requires !Owned(req.path, req.verb)
    ensures var r := Fetch(req, base, handle, s);
      && (base.Some? ==> Respond(r.0) == Some(base.value(req, s).0) && r.1 == base.value(req, s).1)
      && (base.Nothing? ==> Respond(r.0) == Some(Response(404, [], Text("Not found"))) && r.1 == s)
  {}

  /** An explicitly empty transaction runs nothing and answers an empty list. */
  lemma EmptyTransaction<S>(req: Request, base: Option<Handler<S>>, handle: Option<ExecFn<S>>, s: S)
    requires req.path == RawQueryRoute && req.verb == "POST"
    requires req.body.transaction == Some([])
    ensures Fetch(req, base, handle, s) == (JsonOk([]), s)
  {}

  /** Without an engine handle `POST /query/raw` answers one `[]` per query. */
  lemma NoEngineAnswersEmptyResults<S>(req: Request, base: Option<Handler<S>>, s: S)
    requires req.path == RawQueryRoute && req.verb == "POST"
    ensures Fetch(req, base, Nothing, s) == (JsonOk(NoResults(|Queries(req.body)|)), s)
  {
    NoHandleGivesEmptyResults(s, Queries(req.body));
  }
}
