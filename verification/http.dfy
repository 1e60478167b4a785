/** Responses, headers, and the two response builders of the module:
    the CORS preflight and the JSON envelope. */
module Http {
  import opened Options
  import opened Js

  datatype Header = Header(name: string, value: string)

  datatype Body =
    | NoBody                    // `null`
    | Text(text: string)
    | Json(json: JsValue)       // the value handed to `JSON.stringify`

  datatype Response = Response(status: int, headers: seq<Header>, body: Body)

  /** The exceptions `new Response(body, init)` can throw. */
  datatype ConstructorError = RangeError | TypeError

  /** A `new Response(...)` expression: the response, or the exception. */
  datatype Constructed = Built(response: Response) | Thrown(error: ConstructorError)

  /** Statuses whose response must not have a body (the Fetch standard's
      "null body status"). */
  predicate NullBodyStatus(status: int) {
    status == 101 || status == 103 || status == 204 || status == 205 || status == 304
  }

  /** `new Response(body, {status, headers})`, following the Fetch standard's
      Response constructor: a status outside 200-599 is a RangeError, and a
      body on a null-body status is a TypeError. */
  function NewResponse(body: Body, status: int, headers: seq<Header>): (r: Constructed)
    ensures r.Built? <==> 200 <= status <= 599 && !(body != NoBody && NullBodyStatus(status))
    ensures r.Built? ==> r.response.status == status && r.response.headers == headers && r.response.body == body
    ensures !(200 <= status <= 599) ==> r == Thrown(RangeError)
  {
    if !(200 <= status <= 599) then Thrown(RangeError)
    else if body != NoBody && NullBodyStatus(status) then Thrown(TypeError)
    else Built(Response(status, headers, body))
  }

  /** The permissive CORS headers, in declaration order. */
  const CorsHeaders: seq<Header> := [
    Header("Access-Control-Allow-Origin", "*"),
    Header("Access-Control-Allow-Methods", "GET, POST, PATCH, PUT, DELETE, OPTIONS"),
    Header("Access-Control-Allow-Headers", "Authorization, Content-Type, X-Starbase-Source, X-Data-Source"),
    Header("Access-Control-Max-Age", "86400")
  ]

  const ContentType: string := "Content-Type"
  const ApplicationJson: string := "application/json"

  predicate DistinctNames(hs: seq<Header>) {
    forall i, j | 0 <= i < j < |hs| :: hs[i].name != hs[j].name
  }

  /** The value of the first header with the given name. */
  function Lookup(hs: seq<Header>, name: string): (r: Option<string>)
    ensures r.Some? ==> Header(name, r.value) in hs
    ensures r.Nothing? ==> forall i | 0 <= i < |hs| :: hs[i].name != name
  {
    if hs == [] then Nothing
    else if hs[0].name == name then Some(hs[0].value)
    else
      var r := Lookup(hs[1..], name);
      assert forall i | 1 <= i < |hs| :: hs[i] == hs[1..][i - 1];
      r
  }

  /** Adding a header after the others only shows for a name none of them has. */
  lemma {:induction false} LookupAppend(hs: seq<Header>, h: Header, name: string)
    ensures Lookup(hs + [h], name)
         == if Lookup(hs, name).Some? then Lookup(hs, name)
            else if h.name == name then Some(h.value) else Nothing
  {
    if hs != [] {
      assert (hs + [h])[0] == hs[0] && (hs + [h])[1..] == hs[1..] + [h];
      if hs[0].name != name {
        LookupAppend(hs[1..], h, name);
      }
    } else {
      assert [] + [h] == [h];
    }
  }

  /** The CORS header names are pairwise different, and `Content-Type` is
      none of them. */
  lemma JsonHeaderNames()
    ensures DistinctNames(CorsHeaders)
    ensures Lookup(CorsHeaders, ContentType).Nothing?
    ensures DistinctNames(CorsHeaders + [Header(ContentType, ApplicationJson)])
  {}

  /** `corsPreflight()`: 204, a null body, exactly the four CORS headers. */
  function CorsPreflight(): (r: Response)
    ensures r.status == 204 && r.body == NoBody
    ensures r.headers == CorsHeaders && |r.headers| == 4 && DistinctNames(r.headers)
    ensures Lookup(r.headers, "Access-Control-Allow-Origin") == Some("*")
    ensures Lookup(r.headers, "Access-Control-Max-Age") == Some("86400")
  {
    JsonHeaderNames();
    NewResponse(NoBody, 204, CorsHeaders).response
  }

  /** The `error` member of the envelope: `undefined` or a string. */
  function ErrorValue(error: Option<string>): JsValue {
    match error
    case Nothing => Undefined
    case Some(e) => Str(e)
  }

  /** The headers of a JSON response, `{...corsHeaders, 'Content-Type':
      'application/json'}`: since `Content-Type` is not a CORS header it is
      added last, and every CORS header reads as before. */
  function JsonHeaders(): (hs: seq<Header>)
    ensures |hs| == |CorsHeaders| + 1 && hs[..|CorsHeaders|] == CorsHeaders
    ensures DistinctNames(hs)
    ensures Lookup(hs, ContentType) == Some(ApplicationJson)
    ensures forall n | n != ContentType :: Lookup(hs, n) == Lookup(CorsHeaders, n)
  {
    JsonHeaderNames();
    var hs := CorsHeaders + [Header(ContentType, ApplicationJson)];
    forall n ensures Lookup(hs, n) == if n == ContentType then Some(ApplicationJson) else Lookup(CorsHeaders, n) {
      LookupAppend(CorsHeaders, Header(ContentType, ApplicationJson), n);
    }
    hs
  }

  /** `createResponse(result, error, status)`: the envelope `{result, error}`
      as a JSON string body, the given status, and the CORS headers followed
      by `Content-Type: application/json`. Since the body is never null, the
      constructor throws for a null-body status as well as outside 200-599. */
  function CreateResponse(result: JsValue, error: Option<string>, status: int): (c: Constructed)
    ensures c.Built? <==> 200 <= status <= 599 && !NullBodyStatus(status)
    ensures !(200 <= status <= 599) ==> c == Thrown(RangeError)
    ensures 200 <= status <= 599 && NullBodyStatus(status) ==> c == Thrown(TypeError)
    ensures c.Built? ==>
      var r := c.response;
      && r.status == status
      && r.body.Json? && r.body.json.Object?
      && r.body.json.fields.Keys == {"result", "error"}
      && r.body.json.fields["result"] == result
      && (error.Nothing? ==> r.body.json.fields["error"] == Undefined)
      && (error.Some? ==> r.body.json.fields["error"] == Str(error.value))
      && r.headers == JsonHeaders()
  {
    var envelope := map["result" := result, "error" := ErrorValue(error)];
    assert envelope.Keys == {"result", "error"};
    NewResponse(Json(Object(envelope)), status, JsonHeaders())
  }
}
