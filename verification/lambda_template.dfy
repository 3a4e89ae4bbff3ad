/**
 * The placeholder function-code template: reads a version 2 event with
 * defaults, serves a health check on `/` and `/health`, echoes the request on
 * `/echo` for any method, answers 404 naming the path elsewhere, and turns
 * anything thrown into a 500 that carries the error's message.  There is no
 * preflight short-circuit and no method check.
 */
module LambdaTemplate {
  import opened Wrappers
  import opened JsValues
  import opened Http

  /** The CORS header set every response of this handler carries. */
  const Cors: map<string, string> := map[
    "Content-Type" := "application/json",
    "Access-Control-Allow-Origin" := "*",
    "Access-Control-Allow-Methods" := "GET, POST, PUT, DELETE, OPTIONS",
    "Access-Control-Allow-Headers" := "Content-Type, Authorization"
  ]

  const Version := "1.0.0"

  /** The values the deployment substitutes into the template. */
  datatype Deployment = Deployment(projectPrefix: string, environment: string)

  /** `'${project_prefix}-${environment}-api'` */
  function ServiceName(d: Deployment): string {
    d.projectPrefix + "-" + d.environment + "-api"
  }

  /** `requestContext?.http?.method || 'GET'`: the flat `httpMethod` field is never read. */
  function Method(e: Event): (m: string)
    ensures m != ""
    ensures Present(NestedMethod(e)) ==> m == NestedMethod(e).value
    ensures !Present(NestedMethod(e)) ==> m == "GET"
  {
    Or(NestedMethod(e), Some("GET")).value
  }

  /** `rawPath || '/'`: the flat `path` field and `requestContext.http.path` are never read. */
  function Path(e: Event): (p: string)
    ensures p != ""
    ensures Present(e.rawPath) ==> p == e.rawPath.value
    ensures !Present(e.rawPath) ==> p == "/"
  {
    Or(e.rawPath, Some("/")).value
  }

  /** `rawQueryString || ''` */
  function QueryString(e: Event): (q: string)
    ensures Present(e.rawQueryString) ==> q == e.rawQueryString.value
    ensures !Present(e.rawQueryString) ==> q == ""
  {
    Or(e.rawQueryString, Some("")).value
  }

  /** `headers || {}` */
  function EchoedHeaders(e: Event): Json {
    if e.headers.Some? && Truthy(e.headers.value) then e.headers.value else JObj([])
  }

  /**
   * `body ? JSON.parse(body) : null`: `null` for a falsy body, otherwise the
   * parse of the body, coerced to a string first when it is not one; `Err`
   * is the `SyntaxError`'s message.
   */
  function EchoedBody(rt: JsRuntime, b: Body): Result<Json, string> {
    if !BodyTruthy(b) then Ok(JNull)
    else
      var v := BodyValue(b).value;
      if v.JStr? then rt.parse(v.s) else rt.parse(rt.toText(v))
  }

  function HealthBody(d: Deployment, now: string): Json {
    JObj([
      Member("status", JStr("healthy")),
      Member("service", JStr(ServiceName(d))),
      Member("timestamp", JStr(now)),
      Member("version", JStr(Version)),
      Member("environment", JStr(d.environment))
    ])
  }

  function RequestReport(e: Event, body: Json): Json {
    Report(Method(e), Path(e), QueryString(e), EchoedHeaders(e), body)
  }

  /** The `request` object of the echo body. */
  function Report(httpMethod: string, path: string, queryString: string, headers: Json, body: Json): Json {
    JObj([
      Member("method", JStr(httpMethod)),
      Member("path", JStr(path)),
      Member("queryString", JStr(queryString)),
      Member("headers", headers),
      Member("body", body)
    ])
  }

  function EchoBody(d: Deployment, now: string, e: Event, body: Json): Json {
    JObj([
      Member("message", JStr("Echo response")),
      Member("request", RequestReport(e, body)),
      Member("server", JObj([
        Member("service", JStr(ServiceName(d))),
        Member("timestamp", JStr(now)),
        Member("environment", JStr(d.environment))
      ]))
    ])
  }

  function NotFoundMessage(path: string): string {
    "Path '" + path + "' not found"
  }

  function NotFoundBody(d: Deployment, now: string, path: string): Json {
    JObj([
      Member("error", JStr("Not found")),
      Member("message", JStr(NotFoundMessage(path))),
      Member("timestamp", JStr(now)),
      Member("service", JStr(ServiceName(d)))
    ])
  }

  /** The 500 body, which reports the thrown error's message. */
  function InternalErrorBody(message: string, now: string): Json {
    JObj([
      Member("error", JStr("Internal server error")),
      Member("message", JStr(message)),
      Member("timestamp", JStr(now))
    ])
  }

  /** `handleHealthCheck()`: a body of strings only, which `JSON.stringify` always accepts. */
  function HandleHealthCheck(d: Deployment, now: string): (r: Result<Response, string>)
    ensures r.Ok? && r.value.status == 200 && r.value.headers == Cors
  {
    Respond(200, Cors, HealthBody(d, now))
  }

  /** `handleEcho(event)`: throws when `JSON.parse` or `JSON.stringify` does, answers 200 otherwise. */
  function HandleEcho(rt: JsRuntime, d: Deployment, now: string, e: Event): (r: Result<Response, string>)
    ensures EchoedBody(rt, e.body).Err? ==> r == Err(EchoedBody(rt, e.body).error)
    ensures r.Ok? <==> EchoedBody(rt, e.body).Ok? && Serializable(EchoedHeaders(e)) && Serializable(EchoedBody(rt, e.body).value)
    ensures r.Ok? ==> r.value.status == 200 && r.value.headers == Cors
  {
    match EchoedBody(rt, e.body)
    case Err(msg) => Err(msg)
    case Ok(body) =>
      EchoBodySerializable(d, now, e, body);
      Respond(200, Cors, EchoBody(d, now, e, body))
  }

  /** `handleNotFound(path)`: a body of strings only, which `JSON.stringify` always accepts. */
  function HandleNotFound(d: Deployment, now: string, path: string): (r: Result<Response, string>)
    ensures r.Ok? && r.value.status == 404 && r.value.headers == Cors
  {
    Respond(404, Cors, NotFoundBody(d, now, path))
  }

  /**
   * The handler: total, every response carries `Cors` and a JSON body that
   * `JSON.stringify` accepts, and the status is 200, 404 or 500.
   */
  function Dispatch(rt: JsRuntime, d: Deployment, now: string, e: Event): (r: Response)
    ensures r.headers == Cors
    ensures r.status in {200, 404, 500}
    ensures r.body.JsonBody? && Serializable(r.body.json)
  {
    var path := Path(e);
    var routed :=
      if path == "/" || path == "/health" then HandleHealthCheck(d, now)
      else if path == "/echo" then HandleEcho(rt, d, now, e)
      else HandleNotFound(d, now, path);
    match routed
    case Ok(resp) => resp
    case Err(msg) => Response(500, Cors, JsonBody(InternalErrorBody(msg, now)))
  }

  lemma EchoBodySerializable(d: Deployment, now: string, e: Event, body: Json)
    ensures Serializable(EchoBody(d, now, e, body)) <==> Serializable(EchoedHeaders(e)) && Serializable(body)
  {
    var report := RequestReport(e, body);
    assert report.members[3].value == EchoedHeaders(e);
    assert report.members[4].value == body;
    assert Serializable(report) <==> Serializable(EchoedHeaders(e)) && Serializable(body);
    var top := EchoBody(d, now, e, body).members;
    assert top[1].value == report;
    assert Serializable(top[2].value);
  }

  /** Missing and empty values default alike: method `GET`, path `/`, query string `""`. */
  lemma EmptyCountsAsAbsent(rt: JsRuntime, d: Deployment, now: string, e: Event, p: Option<string>)
    ensures Dispatch(rt, d, now, e.(rawPath := Some(""))) == Dispatch(rt, d, now, e.(rawPath := None))
    ensures Dispatch(rt, d, now, e.(rawQueryString := Some(""))) == Dispatch(rt, d, now, e.(rawQueryString := None))
    ensures
      var withEmpty := e.(requestContext := Some(RequestContext(Some(HttpContext(Some(""), p)))));
      var withNone := e.(requestContext := Some(RequestContext(Some(HttpContext(None, p)))));
      Dispatch(rt, d, now, withEmpty) == Dispatch(rt, d, now, withNone)
  {}

  /** `/` and `/health` are both the health check, for every method. */
  lemma HealthOnRootAndHealth(rt: JsRuntime, d: Deployment, now: string, e: Event)
    requires Path(e) == "/" || Path(e) == "/health"
    ensures var r := Dispatch(rt, d, now, e);
      && r.status == 200
      && Field(r, "status") == Some(JStr("healthy"))
      && Field(r, "version") == Some(JStr("1.0.0"))
  {
    var ms := HealthBody(d, now).members;
    LookupFirst(ms, "status", 0);
    LookupFirst(ms, "version", 3);
  }

  /**
   * `/echo` answers 200 whatever the method, `OPTIONS` and an absent method
   * included, reporting the request with the same defaults as the dispatcher,
   * whenever the body parses with a parser like `JSON.parse` and the headers
   * can be written back out.
   */
  lemma EchoReportsRequest(rt: JsRuntime, d: Deployment, now: string, e: Event, b: Json)
    requires ParseYieldsSerializable(rt)
    requires Path(e) == "/echo" && EchoedBody(rt, e.body) == Ok(b) && Serializable(EchoedHeaders(e))
    ensures var r := Dispatch(rt, d, now, e);
      && r.status == 200
      && Field(r, "request").Some?
      && var request := Field(r, "request").value;
      && Get(request, "method") == Some(JStr(Method(e)))
      && Get(request, "path") == Some(JStr("/echo"))
      && Get(request, "queryString") == Some(JStr(QueryString(e)))
      && Get(request, "headers") == Some(EchoedHeaders(e))
      && Get(request, "body") == Some(b)
  {
    EchoedBodySerializable(rt, e.body);
    var body := EchoBody(d, now, e, b);
    EchoAnswered(rt, d, now, e, b);
    assert Get(body, "request") == Some(RequestReport(e, b)) by { LookupFirst(body.members, "request", 1); }
    ReportFields(Method(e), Path(e), QueryString(e), EchoedHeaders(e), b);
  }

  /** With a parser like `JSON.parse`, whatever `body ? JSON.parse(body) : null` yields can be stringified. */
  lemma EchoedBodySerializable(rt: JsRuntime, b: Body)
    requires ParseYieldsSerializable(rt)
    ensures EchoedBody(rt, b).Ok? ==> Serializable(EchoedBody(rt, b).value)
  {
    if BodyTruthy(b) {
      var v := BodyValue(b).value;
      if v.JStr? {
        assert EchoedBody(rt, b) == rt.parse(v.s);
      } else {
        assert EchoedBody(rt, b) == rt.parse(rt.toText(v));
      }
    }
  }

  lemma EchoAnswered(rt: JsRuntime, d: Deployment, now: string, e: Event, b: Json)
    requires Path(e) == "/echo" && EchoedBody(rt, e.body) == Ok(b)
    requires Serializable(EchoedHeaders(e)) && Serializable(b)
    ensures Dispatch(rt, d, now, e) == Response(200, Cors, JsonBody(EchoBody(d, now, e, b)))
  {}

  lemma ReportFields(httpMethod: string, path: string, queryString: string, headers: Json, body: Json)
    ensures var request := Report(httpMethod, path, queryString, headers, body);
      && Get(request, "method") == Some(JStr(httpMethod))
      && Get(request, "path") == Some(JStr(path))
      && Get(request, "queryString") == Some(JStr(queryString))
      && Get(request, "headers") == Some(headers)
      && Get(request, "body") == Some(body)
  {
    var request := Report(httpMethod, path, queryString, headers, body);
    var ms := request.members;
    assert Get(request, "method") == Some(JStr(httpMethod)) by { LookupFirst(ms, "method", 0); }
    assert Get(request, "path") == Some(JStr(path)) by { LookupFirst(ms, "path", 1); }
    assert Get(request, "queryString") == Some(JStr(queryString)) by { LookupFirst(ms, "queryString", 2); }
    assert Get(request, "headers") == Some(headers) by { LookupFirst(ms, "headers", 3); }
    assert Get(request, "body") == Some(body) by { LookupFirst(ms, "body", 4); }
  }

  /** On `/echo` an absent or falsy body is reported as `null`, for any method and any parser. */
  lemma EchoNullBody(rt: JsRuntime, d: Deployment, now: string, e: Event)
    requires Path(e) == "/echo" && !BodyTruthy(e.body) && Serializable(EchoedHeaders(e))
    ensures var r := Dispatch(rt, d, now, e);
      && r.status == 200
      && Field(r, "request").Some?
      && Get(Field(r, "request").value, "body") == Some(JNull)
  {
    var body := EchoBody(d, now, e, JNull);
    EchoAnswered(rt, d, now, e, JNull);
    assert Get(body, "request") == Some(RequestReport(e, JNull)) by { LookupFirst(body.members, "request", 1); }
    ReportFields(Method(e), Path(e), QueryString(e), EchoedHeaders(e), JNull);
  }

  /** On `/echo` missing or falsy `headers` are reported as `{}` (`headers || {}`). */
  lemma EchoEmptyHeaders(rt: JsRuntime, d: Deployment, now: string, e: Event)
    requires ParseYieldsSerializable(rt)
    requires Path(e) == "/echo" && !(e.headers.Some? && Truthy(e.headers.value)) && EchoedBody(rt, e.body).Ok?
    ensures var r := Dispatch(rt, d, now, e);
      && r.status == 200
      && Field(r, "request").Some?
      && Get(Field(r, "request").value, "headers") == Some(JObj([]))
  {
    EchoReportsRequest(rt, d, now, e, EchoedBody(rt, e.body).value);
  }

  /** On `/echo` a string body that parses to `b` is reported as `b`. */
  lemma EchoStringBodyParsed(rt: JsRuntime, d: Deployment, now: string, e: Event, s: string, b: Json)
    requires ParseYieldsSerializable(rt)
    requires Path(e) == "/echo" && Serializable(EchoedHeaders(e))
    requires BodyValue(e.body) == Some(JStr(s)) && s != "" && rt.parse(s) == Ok(b)
    ensures var r := Dispatch(rt, d, now, e);
      && r.status == 200
      && Field(r, "request").Some?
      && Get(Field(r, "request").value, "body") == Some(b)
  {
    assert EchoedBody(rt, e.body) == Ok(b);
    EchoReportsRequest(rt, d, now, e, b);
  }

  /** On `/echo` a truthy non-string body is coerced to a string, parsed, and reported as the parse. */
  lemma EchoObjectBodyParsed(rt: JsRuntime, d: Deployment, now: string, e: Event, v: Json, b: Json)
    requires ParseYieldsSerializable(rt)
    requires Path(e) == "/echo" && Serializable(EchoedHeaders(e))
    requires BodyValue(e.body) == Some(v) && Truthy(v) && !v.JStr? && rt.parse(rt.toText(v)) == Ok(b)
    ensures var r := Dispatch(rt, d, now, e);
      && r.status == 200
      && Field(r, "request").Some?
      && Get(Field(r, "request").value, "body") == Some(b)
  {
    assert EchoedBody(rt, e.body) == Ok(b);
    EchoReportsRequest(rt, d, now, e, b);
  }

  /**
   * A string body that `JSON.parse` rejects is not caught where it is parsed:
   * it reaches the outer handler and becomes a 500 carrying the parse error's
   * message, not a 400.
   */
  lemma EchoParseFailureIs500(rt: JsRuntime, d: Deployment, now: string, e: Event, s: string, msg: string)
    requires Path(e) == "/echo" && BodyValue(e.body) == Some(JStr(s)) && s != "" && rt.parse(s) == Err(msg)
    ensures var r := Dispatch(rt, d, now, e);
      && r.status == 500
      && Field(r, "error") == Some(JStr("Internal server error"))
      && Field(r, "message") == Some(JStr(msg))
  {
    var ms := InternalErrorBody(msg, now).members;
    LookupFirst(ms, "error", 0);
    LookupFirst(ms, "message", 1);
  }

  /** Exactly the `/echo` requests whose body or headers cannot be parsed or written back end in 500. */
  lemma InternalErrorExactly(rt: JsRuntime, d: Deployment, now: string, e: Event)
    ensures Dispatch(rt, d, now, e).status == 500 <==>
      && Path(e) == "/echo"
      && (|| EchoedBody(rt, e.body).Err?
          || !Serializable(EchoedHeaders(e))
          || !Serializable(EchoedBody(rt, e.body).value))
  {}

  /**
   * With a parser like `JSON.parse`, the 500 happens exactly on `/echo` when
   * the body does not parse or the echoed headers hold a `BigInt`.
   */
  lemma InternalErrorFromParseOrHeaders(rt: JsRuntime, d: Deployment, now: string, e: Event)
    requires ParseYieldsSerializable(rt)
    ensures Dispatch(rt, d, now, e).status == 500 <==>
      && Path(e) == "/echo"
      && (EchoedBody(rt, e.body).Err? || !Serializable(EchoedHeaders(e)))
  {
    InternalErrorExactly(rt, d, now, e);
    EchoedBodySerializable(rt, e.body);
  }

  /** Every other path answers 404 naming the path, whatever the method, `OPTIONS` included. */
  lemma UnknownPathIs404(rt: JsRuntime, d: Deployment, now: string, e: Event)
    requires Path(e) != "/" && Path(e) != "/health" && Path(e) != "/echo"
    ensures var r := Dispatch(rt, d, now, e);
      && r.status == 404
      && Field(r, "message") == Some(JStr("Path '" + Path(e) + "' not found"))
  {
    LookupFirst(NotFoundBody(d, now, Path(e)).members, "message", 1);
  }
}
