/**
 * The `real-api` handler: normalises method and path, answers `OPTIONS`
 * preflights, serves a health check on `/` and an echo on `/echo`, answers
 * 404 elsewhere and turns anything thrown into a generic 500.  Every response
 * carries the same CORS header set.
 */
module RealApi {
  import opened Wrappers
  import opened JsValues
  import opened Http

  /** The one header set attached to every response. */
  const Cors: map<string, string> := map[
    "Content-Type" := "application/json",
    "Access-Control-Allow-Origin" := "*",
    "Access-Control-Allow-Methods" := "GET, POST, OPTIONS",
    "Access-Control-Allow-Headers" := "Content-Type"
  ]

  const ApiName := "real-api"

  /** The paths the 404 body advertises. */
  const AvailablePaths := JArr([JStr("/"), JStr("/echo")])

  const Preflight := Response(200, Cors, Empty)

  /** The 500 body: fixed text, never the thrown error's detail. */
  const InternalErrorBody := JObj([
    Member("error", JStr("Internal Server Error")),
    Member("message", JStr("An unexpected error occurred"))
  ])

  const MethodNotAllowedBody := JObj([
    Member("error", JStr("Method not allowed")),
    Member("message", JStr("Echo endpoint only accepts POST requests"))
  ])

  const InvalidJsonBody := JObj([
    Member("error", JStr("Invalid JSON")),
    Member("message", JStr("Request body must be valid JSON"))
  ])

  const NotFoundBody := JObj([
    Member("error", JStr("Not Found")),
    Member("message", JStr("The requested path was not found")),
    Member("availablePaths", AvailablePaths)
  ])

  function HealthBody(now: string): Json {
    JObj([
      Member("message", JStr("Real API is running successfully")),
      Member("apiName", JStr(ApiName)),
      Member("timestamp", JStr(now)),
      Member("status", JStr("healthy"))
    ])
  }

  function EchoBody(requestBody: Json, now: string): Json {
    JObj([
      Member("message", JStr("This is the message I received")),
      Member("originalMessage", requestBody),
      Member("apiName", JStr(ApiName)),
      Member("timestamp", JStr(now))
    ])
  }

  /**
   * `event.httpMethod || event.requestContext?.http?.method`: the flat field
   * when it is a non-empty string, otherwise the nested one as it is, with no
   * default, so the method may stay absent.
   */
  function Method(e: Event): (m: Option<string>)
    ensures Present(m) <==> Present(e.httpMethod) || Present(NestedMethod(e))
    ensures Present(e.httpMethod) ==> m == e.httpMethod
    ensures Present(m) && !Present(e.httpMethod) ==> m == NestedMethod(e)
    ensures m.None? <==> !Present(e.httpMethod) && NestedMethod(e).None?
  {
    Or(e.httpMethod, NestedMethod(e))
  }

  /**
   * `event.path || event.requestContext?.http?.path || '/'`: the first
   * non-empty candidate, so never the empty string.
   */
  function Path(e: Event): (p: string)
    ensures p != ""
    ensures Present(e.path) ==> p == e.path.value
    ensures !Present(e.path) && Present(NestedPath(e)) ==> p == NestedPath(e).value
    ensures !Present(e.path) && !Present(NestedPath(e)) ==> p == "/"
  {
    Or(Or(e.path, NestedPath(e)), Some("/")).value
  }

  /**
   * `requestBody` as the echo route computes it: `{}` for a falsy body, the
   * parse of a string body (an error when `JSON.parse` throws), any other
   * value unchanged.
   */
  function RequestBody(rt: JsRuntime, b: Body): Result<Json, string> {
    if !BodyTruthy(b) then Ok(JObj([]))
    else
      var v := BodyValue(b).value;
      if v.JStr? then rt.parse(v.s) else Ok(v)
  }

  /** The body of the `try` block, given the normalised method and path; `Err` is a thrown error. */
  function Handle(rt: JsRuntime, now: string, body: Body, httpMethod: Option<string>, path: string): Result<Response, string> {
    if httpMethod == Some("OPTIONS") then Ok(Preflight)
    else if path == "/" || path == "" then Respond(200, Cors, HealthBody(now))
    else if path == "/echo" then
      if httpMethod != Some("POST") then Respond(405, Cors, MethodNotAllowedBody)
      else
        match RequestBody(rt, body)
        case Err(_) => Respond(400, Cors, InvalidJsonBody)
        case Ok(v) => Respond(200, Cors, EchoBody(v, now))
    else Respond(404, Cors, NotFoundBody)
  }

  /**
   * The handler: total, every response carries `Cors`, only a preflight has an
   * empty body, every JSON body is one `JSON.stringify` accepts, and a 500
   * never reveals what was thrown.
   */
  function Dispatch(rt: JsRuntime, now: string, e: Event): (r: Response)
    ensures r.headers == Cors
    ensures r.status in {200, 400, 404, 405, 500}
    ensures r.body.Empty? <==> Method(e) == Some("OPTIONS")
    ensures r.body.JsonBody? ==> Serializable(r.body.json)
    ensures r.status == 500 ==> r.body == JsonBody(InternalErrorBody)
  {
    match Handle(rt, now, e.body, Method(e), Path(e))
    case Ok(resp) => resp
    case Err(_) => Response(500, Cors, JsonBody(InternalErrorBody))
  }

  /** The echo route as a `POST` reaches it: normalised path `/echo`, method exactly `POST`. */
  predicate PostEcho(e: Event) {
    Path(e) == "/echo" && Method(e) == Some("POST")
  }

  /** `OPTIONS` on any path, known or not, is answered 200 with an empty body before any routing. */
  lemma PreflightOnAnyPath(rt: JsRuntime, now: string, e: Event)
    requires Method(e) == Some("OPTIONS")
    ensures Dispatch(rt, now, e) == Response(200, Cors, Empty)
  {}

  /** An empty string in `httpMethod` or `path` behaves exactly like a missing one. */
  lemma EmptyCountsAsAbsent(rt: JsRuntime, now: string, e: Event)
    ensures Dispatch(rt, now, e.(httpMethod := Some(""))) == Dispatch(rt, now, e.(httpMethod := None))
    ensures Dispatch(rt, now, e.(path := Some(""))) == Dispatch(rt, now, e.(path := None))
  {}

  /** `/` is the health check for every method but `OPTIONS`, absent method included. */
  lemma HealthOnRoot(rt: JsRuntime, now: string, e: Event)
    requires Method(e) != Some("OPTIONS") && Path(e) == "/"
    ensures var r := Dispatch(rt, now, e);
      && r.status == 200
      && Field(r, "status") == Some(JStr("healthy"))
      && Field(r, "apiName") == Some(JStr("real-api"))
      && Field(r, "timestamp") == Some(JStr(now))
  {
    var body := HealthBody(now);
    assert Dispatch(rt, now, e) == Response(200, Cors, JsonBody(body));
    assert Get(body, "status") == Some(JStr("healthy")) by { LookupFirst(body.members, "status", 3); }
    assert Get(body, "apiName") == Some(JStr("real-api")) by { LookupFirst(body.members, "apiName", 1); }
    assert Get(body, "timestamp") == Some(JStr(now)) by { LookupFirst(body.members, "timestamp", 2); }
  }

  /** `/echo` answers 405 to every method but `POST`, an absent method included. */
  lemma EchoRejectsOtherMethods(rt: JsRuntime, now: string, e: Event)
    requires Path(e) == "/echo" && Method(e) != Some("POST") && Method(e) != Some("OPTIONS")
    ensures var r := Dispatch(rt, now, e);
      r.status == 405 && Field(r, "error") == Some(JStr("Method not allowed"))
  {
    LookupFirst(MethodNotAllowedBody.members, "error", 0);
  }

  /** A string body that `JSON.parse` rejects is a client error, 400, never a 500. */
  lemma EchoInvalidJsonIs400(rt: JsRuntime, now: string, e: Event, s: string)
    requires PostEcho(e) && BodyValue(e.body) == Some(JStr(s)) && s != "" && rt.parse(s).Err?
    ensures var r := Dispatch(rt, now, e);
      r.status == 400 && Field(r, "error") == Some(JStr("Invalid JSON"))
  {
    LookupFirst(InvalidJsonBody.members, "error", 0);
  }

  /** With a parser like `JSON.parse`, a string body that parses to `b` is echoed as `originalMessage == b`. */
  lemma EchoParsedBody(rt: JsRuntime, now: string, e: Event, s: string, b: Json)
    requires ParseYieldsSerializable(rt)
    requires PostEcho(e) && BodyValue(e.body) == Some(JStr(s)) && s != "" && rt.parse(s) == Ok(b)
    ensures var r := Dispatch(rt, now, e);
      r.status == 200 && Field(r, "originalMessage") == Some(b)
  {
    assert Serializable(b) by { assert rt.parse(s).Ok?; }
    LookupFirst(EchoBody(b, now).members, "originalMessage", 1);
  }

  /** A truthy body that is not a string is echoed verbatim, without parsing. */
  lemma EchoObjectVerbatim(rt: JsRuntime, now: string, e: Event, v: Json)
    requires PostEcho(e) && BodyValue(e.body) == Some(v) && !v.JStr? && Truthy(v) && Serializable(v)
    ensures var r := Dispatch(rt, now, e);
      r.status == 200 && Field(r, "originalMessage") == Some(v)
  {
    LookupFirst(EchoBody(v, now).members, "originalMessage", 1);
  }

  /** An absent or falsy body (`""`, `null`, ...) is echoed as the empty object. */
  lemma EchoFalsyBodyIsEmptyObject(rt: JsRuntime, now: string, e: Event)
    requires PostEcho(e) && !BodyTruthy(e.body)
    ensures var r := Dispatch(rt, now, e);
      r.status == 200 && Field(r, "originalMessage") == Some(JObj([]))
  {
    LookupFirst(EchoBody(JObj([]), now).members, "originalMessage", 1);
  }

  /**
   * For any parser, the only way to the 500 is a `POST /echo` whose request
   * body `JSON.stringify` cannot write back out; what is thrown stays out of
   * the response.
   */
  lemma InternalErrorExactly(rt: JsRuntime, now: string, e: Event)
    ensures Dispatch(rt, now, e).status == 500 <==>
      && PostEcho(e)
      && RequestBody(rt, e.body).Ok?
      && !Serializable(RequestBody(rt, e.body).value)
    ensures Dispatch(rt, now, e).status == 500 ==> Dispatch(rt, now, e) == Response(500, Cors, JsonBody(InternalErrorBody))
  {
    if PostEcho(e) && RequestBody(rt, e.body).Ok? {
      EchoBodySerializable(RequestBody(rt, e.body).value, now);
    }
  }

  /**
   * With a parser like `JSON.parse`, the 500 is reached exactly by a
   * `POST /echo` whose truthy, non-string body holds a `BigInt`.
   */
  lemma InternalErrorOnlyFromObjectBody(rt: JsRuntime, now: string, e: Event)
    requires ParseYieldsSerializable(rt)
    ensures Dispatch(rt, now, e).status == 500 <==>
      && PostEcho(e)
      && BodyTruthy(e.body)
      && !BodyValue(e.body).value.JStr?
      && !Serializable(BodyValue(e.body).value)
  {
    InternalErrorExactly(rt, now, e);
    if BodyTruthy(e.body) && BodyValue(e.body).value.JStr? {
      assert RequestBody(rt, e.body) == rt.parse(BodyValue(e.body).value.s);
    }
  }

  lemma EchoBodySerializable(v: Json, now: string)
    ensures Serializable(EchoBody(v, now)) <==> Serializable(v)
  {
    var ms := EchoBody(v, now).members;
    assert ms[1].value == v;
  }

  /** Every other path answers 404 listing exactly `/` and `/echo`. */
  lemma UnknownPathIs404(rt: JsRuntime, now: string, e: Event)
    requires Method(e) != Some("OPTIONS") && Path(e) != "/" && Path(e) != "/echo"
    ensures var r := Dispatch(rt, now, e);
      && r.status == 404
      && Field(r, "availablePaths") == Some(JArr([JStr("/"), JStr("/echo")]))
  {
    LookupFirst(NotFoundBody.members, "availablePaths", 2);
  }
}
