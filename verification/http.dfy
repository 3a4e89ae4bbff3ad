/**
 * The event a hosting function environment hands each handler and the
 * response record a handler gives back, shared by both dispatchers.
 */
module Http {
  import opened Wrappers
  import opened JsValues

  /**
   * The event's `body` field.  `StrBody` is a string body; `ObjBody` holds any
   * other JavaScript value (an object from a direct invocation, or `null`).
   * `ObjBody(JStr(s))` denotes the same JavaScript value as `StrBody(s)`.
   */
  datatype Body = NoBody | StrBody(s: string) | ObjBody(v: Json)

  /** `requestContext.http` of a version 2 event; `httpMethod` is its `method` field. */
  datatype HttpContext = HttpContext(httpMethod: Option<string>, path: Option<string>)

  datatype RequestContext = RequestContext(http: Option<HttpContext>)

  /**
   * An inbound event.  `httpMethod` and `path` are the flat fields of a
   * version 1 event; `rawPath`, `rawQueryString` and `requestContext.http`
   * belong to a version 2 event.  Any of them may be missing.  `headers` is
   * kept as the raw JavaScript value because one dispatcher echoes it verbatim.
   */
  datatype Event = Event(
    httpMethod: Option<string>,
    path: Option<string>,
    rawPath: Option<string>,
    rawQueryString: Option<string>,
    requestContext: Option<RequestContext>,
    headers: Option<Json>,
    body: Body)

  /** A response body: empty (`''`) or the structured value handed to `JSON.stringify`. */
  datatype ResponseBody = Empty | JsonBody(json: Json)

  datatype Response = Response(status: int, headers: map<string, string>, body: ResponseBody)

  /** A string-or-undefined operand that JavaScript treats as true: present and not `""`. */
  predicate Present(o: Option<string>) {
    o.Some? && o.value != ""
  }

  /**
   * JavaScript's `a || b` on string-or-undefined operands: `a` when it is
   * truthy, otherwise `b` as it is, even when `b` is `""` or missing.
   * The operator associates to the left: `a || b || c` is `Or(Or(a, b), c)`.
   */
  function Or(a: Option<string>, b: Option<string>): Option<string> {
    if Present(a) then a else b
  }

  /** `event.requestContext?.http?.method` */
  function NestedMethod(e: Event): Option<string> {
    if e.requestContext.Some? && e.requestContext.value.http.Some?
    then e.requestContext.value.http.value.httpMethod
    else None
  }

  /** `event.requestContext?.http?.path` */
  function NestedPath(e: Event): Option<string> {
    if e.requestContext.Some? && e.requestContext.value.http.Some?
    then e.requestContext.value.http.value.path
    else None
  }

  /** The JavaScript value of the `body` field, `None` when it is `undefined`. */
  function BodyValue(b: Body): Option<Json> {
    match b
    case NoBody => None
    case StrBody(s) => Some(JStr(s))
    case ObjBody(v) => Some(v)
  }

  /** `if (event.body)`: the body is present and truthy. */
  predicate BodyTruthy(b: Body) {
    BodyValue(b).Some? && Truthy(BodyValue(b).value)
  }

  /**
   * `{ statusCode, headers, body: JSON.stringify(obj) }`: throws, with the
   * `TypeError`'s message, exactly when `JSON.stringify` rejects `obj`.
   */
  function Respond(status: int, headers: map<string, string>, obj: Json): (r: Result<Response, string>)
    ensures r.Ok? <==> Serializable(obj)
    ensures r.Ok? ==> r.value == Response(status, headers, JsonBody(obj))
    ensures r.Err? ==> r.error == BigIntMessage
  {
    match Stringify(obj)
    case Pass => Ok(Response(status, headers, JsonBody(obj)))
    case Fail(msg) => Err(msg)
  }

  /** The member `key` of a response's JSON body, if it has one. */
  function Field(r: Response, key: string): Option<Json> {
    if r.body.JsonBody? then Get(r.body.json, key) else None
  }
}
