/**
 * Where the two dispatchers answer the same event differently: preflight
 * handling, invalid JSON, the `/health` path, the event fields each one reads,
 * and the CORS header set.
 */
module Divergence {
  import opened Wrappers
  import opened JsValues
  import opened Http
  import RealApi
  import LambdaTemplate

  /**
   * A version 2 preflight: `real-api` answers it with an empty 200 on any
   * path, while the template routes it like any other method and always
   * answers with a JSON body, 404 on an unknown path.
   */
  lemma PreflightOnlyInRealApi(rt: JsRuntime, d: LambdaTemplate.Deployment, now: string, e: Event)
    requires NestedMethod(e) == Some("OPTIONS") && !Present(e.httpMethod)
    ensures RealApi.Dispatch(rt, now, e) == Response(200, RealApi.Cors, Empty)
    ensures LambdaTemplate.Dispatch(rt, d, now, e).body.JsonBody?
    ensures LambdaTemplate.Path(e) !in {"/", "/health", "/echo"} ==> LambdaTemplate.Dispatch(rt, d, now, e).status == 404
  {}

  /**
   * The same version 2 `POST /echo` with a body `JSON.parse` rejects: 400
   * from `real-api`, 500 from the template.
   */
  lemma InvalidJsonDiverges(rt: JsRuntime, d: LambdaTemplate.Deployment, now: string, e: Event, s: string)
    requires NestedMethod(e) == Some("POST") && !Present(e.httpMethod)
    requires !Present(e.path) && NestedPath(e) == Some("/echo") && e.rawPath == Some("/echo")
    requires BodyValue(e.body) == Some(JStr(s)) && s != "" && rt.parse(s).Err?
    ensures RealApi.Dispatch(rt, now, e).status == 400
    ensures LambdaTemplate.Dispatch(rt, d, now, e).status == 500
  {}

  /** In a version 2 event, `/health` is the template's health check but an unknown path to `real-api`. */
  lemma HealthPathDiverges(rt: JsRuntime, d: LambdaTemplate.Deployment, now: string, e: Event)
    requires !Present(e.path) && NestedPath(e) == Some("/health") && e.rawPath == Some("/health")
    requires RealApi.Method(e) != Some("OPTIONS")
    ensures RealApi.Dispatch(rt, now, e).status == 404
    ensures LambdaTemplate.Dispatch(rt, d, now, e).status == 200
  {}

  /**
   * The template never reads the flat version 1 fields: a version 1 event,
   * whatever its `httpMethod` and `path`, is a `GET /` health check to it.
   */
  lemma FlatEventIsHealthCheckToTemplate(rt: JsRuntime, d: LambdaTemplate.Deployment, now: string, e: Event)
    requires e.rawPath.None? && e.requestContext.None?
    ensures LambdaTemplate.Method(e) == "GET" && LambdaTemplate.Path(e) == "/"
    ensures LambdaTemplate.Dispatch(rt, d, now, e).status == 200
    ensures Field(LambdaTemplate.Dispatch(rt, d, now, e), "status") == Some(JStr("healthy"))
  {}

  /** Both header sets name the same four headers but allow different methods and request headers. */
  lemma CorsSetsDiffer()
    ensures RealApi.Cors.Keys == LambdaTemplate.Cors.Keys && |RealApi.Cors| == 4
    ensures RealApi.Cors["Access-Control-Allow-Methods"] != LambdaTemplate.Cors["Access-Control-Allow-Methods"]
    ensures RealApi.Cors["Access-Control-Allow-Headers"] != LambdaTemplate.Cors["Access-Control-Allow-Headers"]
  {}
}
