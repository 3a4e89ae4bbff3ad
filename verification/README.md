# HTTP event dispatchers

This project models the two request dispatchers of the repository. Each one takes one HTTP
event from a hosted function environment and returns one response record. Both are written
in Dafny as pure, total functions from an `Event` to a `Response`.

- `RealApi.Dispatch` models `packages/real-api/index.js`. It normalises the method and path
  with JavaScript `||` fallback chains and answers an `OPTIONS` preflight before any routing.
  It serves a health check on `/` and a `POST`-only echo on `/echo`. An invalid JSON body gets
  a local 400. Every other path gets a 404 that lists `/` and `/echo`. Anything thrown becomes
  a generic 500. Every response carries one fixed set of four CORS headers.
- `LambdaTemplate.Dispatch` models `iac/02-infra-setup/modules/lambda/lambda_code_template.js`.
  It defaults the method to `GET`, the path to `/` and the query string to `""`. It serves the
  health check on both `/` and `/health`. It echoes the normalised request on `/echo` for
  every method. Every other path gets a 404 that names the path. It has no preflight
  short-circuit and no method check. A `JSON.parse` failure is not caught locally: it reaches
  the outer `catch` and becomes a 500 that carries the error's message.

Modules:

- `Wrappers`: `Option`, `Result` and `Outcome`.
- `JsValues` models JavaScript values. `Json` covers what `JSON.parse` yields, plus `BigInt`.
  `Truthy` is JavaScript truthiness. `Stringify` models the walk `JSON.stringify` makes over a
  value and says whether it throws.
- `Http` holds the event and response shapes and `Or`, the JavaScript `||` operator on
  strings. It also holds `Respond`, which builds `{statusCode, headers, body: JSON.stringify(obj)}`.
- `RealApi` and `LambdaTemplate` hold one dispatcher each, with a lemma per route.
- `Divergence` holds lemmas on the same event where the two dispatchers answer differently.

Modelling choices:

- JavaScript falsiness is explicit. An empty string counts as absent in every `||` chain. The
  chain yields its last operand when no operand is truthy. So `real-api`'s method has no
  default and can stay absent, or be `""`.
- `JSON.parse` is the `parse` field of a `JsRuntime` value. It returns the parsed value or the
  `SyntaxError`'s message. `String(...)`, which `JSON.parse` applies to a non-string argument,
  is the `toText` field. Lemmas that need the parser to act like `JSON.parse` require
  `ParseYieldsSerializable`: `parse` never yields a `BigInt`. The other lemmas hold for any
  parser. The clock's `new Date().toISOString()` is the `now` parameter. The
  Terraform substitutions `${project_prefix}` and `${environment}` are a `Deployment` value.
- Response bodies are the structured value handed to `JSON.stringify`, not its text. Objects
  keep insertion order. `Field` reads the first member with a given key.
- `JSON.stringify` throws a `TypeError` on a `BigInt`. This is the one thrown error in
  `real-api` that its `catch` can receive: a non-string object body that holds a `BigInt` gets
  through the echo route. In the template the parse error and this `TypeError` are both
  thrown errors, and their message goes into the 500 body.
- Behaviour of the code worth noting:
  - `real-api` gives the method no `GET` default.
  - `real-api` reads the flat `httpMethod` and `path` fields before the nested
    `requestContext.http` ones.
  - The template never reads `httpMethod` or `path`. It reads only `rawPath` and
    `requestContext.http.method`.
  - The template answers an invalid JSON body with a 500, not a 400.
- `real-api` tests `path === ''`, but that test can never be true, because the path chain ends
  in `'/'`. `RealApi.Path` proves the path is never empty. The test is kept as written.

## Model

| member | source | states |
|---|---|---|
| `JsValues.Stringify` | packages/real-api/index.js:75-79 | `JSON.stringify` throws exactly when the value holds a `BigInt` somewhere inside it, and then with the `BigInt` `TypeError` message |
| `Http.Respond` | packages/real-api/index.js:32-36 | a response record is built exactly when its body can be stringified; otherwise the thrown message is passed on |
| `RealApi.Method` | packages/real-api/index.js:2 | the method is the flat `httpMethod` when non-empty, else the nested `requestContext.http.method`; it is absent only when the flat field is falsy and the nested one is missing (no default) |
| `RealApi.Path` | packages/real-api/index.js:3 | the path is the first non-empty of `path`, `requestContext.http.path` and `/`; it is never empty |
| `RealApi.Dispatch` | packages/real-api/index.js:6-104 | total; every response carries the fixed four-header CORS set; status is one of 200, 400, 404, 405, 500; the body is empty exactly for a preflight; every JSON body can be stringified; a 500 always has the fixed generic body |
| `RealApi.PreflightOnAnyPath` | packages/real-api/index.js:15-21 | `OPTIONS` on any path, known or not, gives 200, the CORS headers and an empty body |
| `RealApi.EmptyCountsAsAbsent` | packages/real-api/index.js:2-3 | an empty `httpMethod` or `path` gives the same response as a missing one |
| `RealApi.HealthOnRoot` | packages/real-api/index.js:24-37 | `/` with any method but `OPTIONS`, including an absent one, gives 200 with `status: 'healthy'`, `apiName: 'real-api'` and the timestamp |
| `RealApi.EchoRejectsOtherMethods` | packages/real-api/index.js:40-50 | `/echo` with any method other than `POST` and `OPTIONS`, including an absent one, gives 405 with `error: 'Method not allowed'` |
| `RealApi.EchoInvalidJsonIs400` | packages/real-api/index.js:53-65 | `POST /echo` with a non-empty string body that fails to parse gives 400 `Invalid JSON` |
| `RealApi.EchoParsedBody` | packages/real-api/index.js:52-79 | with a parser that never yields a `BigInt`, `POST /echo` with a string body that parses to `b` gives 200 with `originalMessage == b` |
| `RealApi.EchoObjectVerbatim` | packages/real-api/index.js:52-79 | `POST /echo` with a truthy non-string body that `JSON.stringify` accepts gives 200 and echoes it unchanged as `originalMessage` |
| `RealApi.EchoFalsyBodyIsEmptyObject` | packages/real-api/index.js:52-79 | `POST /echo` with an absent or falsy body (`""`, `null`, ...) is echoed as `{}` |
| `RealApi.InternalErrorExactly` | packages/real-api/index.js:93-103 | for any parser, the 500 happens exactly for a `POST /echo` whose request body cannot be stringified, and its body never includes the error |
| `RealApi.InternalErrorOnlyFromObjectBody` | packages/real-api/index.js:52-79 | with a parser that never yields a `BigInt`, the 500 happens exactly for a `POST /echo` whose truthy non-string body holds a `BigInt` |
| `RealApi.UnknownPathIs404` | packages/real-api/index.js:83-91 | any path other than `/` and `/echo`, without `OPTIONS`, gives 404 with `availablePaths == ['/', '/echo']` |
| `LambdaTemplate.Method` | iac/02-infra-setup/modules/lambda/lambda_code_template.js:7 | the method is `requestContext.http.method` when non-empty, else `GET` |
| `LambdaTemplate.Path` | iac/02-infra-setup/modules/lambda/lambda_code_template.js:8 | the path is `rawPath` when non-empty, else `/` |
| `LambdaTemplate.QueryString` | iac/02-infra-setup/modules/lambda/lambda_code_template.js:9 | the query string is `rawQueryString` when non-empty, else `""` |
| `LambdaTemplate.HandleHealthCheck` | iac/02-infra-setup/modules/lambda/lambda_code_template.js:46-62 | the health handler never throws and answers 200 with the template's CORS headers |
| `LambdaTemplate.HandleEcho` | iac/02-infra-setup/modules/lambda/lambda_code_template.js:65-91 | the echo handler throws the parse error's message when `JSON.parse` fails; it answers 200 exactly when the body parses and the body and headers can be stringified |
| `LambdaTemplate.HandleNotFound` | iac/02-infra-setup/modules/lambda/lambda_code_template.js:94-109 | the not-found handler never throws and answers 404 with the template's CORS headers |
| `LambdaTemplate.Dispatch` | iac/02-infra-setup/modules/lambda/lambda_code_template.js:4-44 | total; every response carries the template's four CORS headers and a JSON body that can be stringified; status is one of 200, 404, 500 |
| `LambdaTemplate.EmptyCountsAsAbsent` | iac/02-infra-setup/modules/lambda/lambda_code_template.js:7-9 | an empty `rawPath`, `rawQueryString` or nested method gives the same response as a missing one |
| `LambdaTemplate.HealthOnRootAndHealth` | iac/02-infra-setup/modules/lambda/lambda_code_template.js:20-21 | `/` and `/health`, with any method, give 200 with `status: 'healthy'` and `version: '1.0.0'` |
| `LambdaTemplate.EchoReportsRequest` | iac/02-infra-setup/modules/lambda/lambda_code_template.js:78-83 | with a parser that never yields a `BigInt` and headers that can be stringified, `/echo` with any method, `OPTIONS` included, and a body that parses gives 200 reporting the defaulted method, the path, the defaulted query string, the headers and the parsed body |
| `LambdaTemplate.EchoNullBody` | iac/02-infra-setup/modules/lambda/lambda_code_template.js:83 | for any parser, `/echo` with an absent or falsy body and headers that can be stringified gives 200 reporting the body as `null` |
| `LambdaTemplate.EchoEmptyHeaders` | iac/02-infra-setup/modules/lambda/lambda_code_template.js:82 | with a parser that never yields a `BigInt`, `/echo` with missing or falsy headers and a body that parses gives 200 reporting the headers as `{}` |
| `LambdaTemplate.EchoStringBodyParsed` | iac/02-infra-setup/modules/lambda/lambda_code_template.js:83 | with a parser that never yields a `BigInt`, `/echo` with a non-empty string body that parses to `b` gives 200 reporting the body as `b` |
| `LambdaTemplate.EchoObjectBodyParsed` | iac/02-infra-setup/modules/lambda/lambda_code_template.js:83 | with a parser that never yields a `BigInt`, `/echo` with a truthy non-string body `v` whose `String(v)` parses to `b` gives 200 reporting the body as `b` |
| `LambdaTemplate.EchoParseFailureIs500` | iac/02-infra-setup/modules/lambda/lambda_code_template.js:27-42 | an `/echo` string body that fails to parse gives 500 with `error: 'Internal server error'` and the parse error's message, not 400 |
| `LambdaTemplate.InternalErrorExactly` | iac/02-infra-setup/modules/lambda/lambda_code_template.js:18-43 | for any parser, the 500 happens exactly on `/echo` when the body does not parse, or the body or headers cannot be stringified |
| `LambdaTemplate.InternalErrorFromParseOrHeaders` | iac/02-infra-setup/modules/lambda/lambda_code_template.js:18-43 | with a parser that never yields a `BigInt`, the 500 happens exactly on `/echo` when the body does not parse or the headers hold a `BigInt` |
| `LambdaTemplate.UnknownPathIs404` | iac/02-infra-setup/modules/lambda/lambda_code_template.js:94-109 | any other path, with any method including `OPTIONS`, gives 404 with message `Path '<path>' not found` |
| `Divergence.PreflightOnlyInRealApi` | packages/real-api/index.js:15-21 | the same version 2 `OPTIONS` event gets an empty 200 from `real-api`, but a JSON body (404 on an unknown path) from the template |
| `Divergence.InvalidJsonDiverges` | iac/02-infra-setup/modules/lambda/lambda_code_template.js:83 | the same version 2 `POST /echo` with unparsable JSON gets 400 from `real-api` and 500 from the template |
| `Divergence.HealthPathDiverges` | iac/02-infra-setup/modules/lambda/lambda_code_template.js:20 | in a version 2 event, `/health` is a 404 for `real-api` and a 200 health check for the template |
| `Divergence.FlatEventIsHealthCheckToTemplate` | iac/02-infra-setup/modules/lambda/lambda_code_template.js:6-9 | an event with only the flat version 1 fields is a `GET /` health check to the template, whatever its `httpMethod` and `path` |
| `Divergence.CorsSetsDiffer` | iac/02-infra-setup/modules/lambda/lambda_code_template.js:31-36 | both CORS sets name the same four headers but differ in allowed methods and allowed headers |

## Left out

- Logging (`console.log`, `console.error`) is left out. It has no effect on the response.
- The `async` wrapper is left out: each handler is a plain function returning its response.
  Both handlers read the event outside their `try`. `real-api` normalises the method and path
  there (packages/real-api/index.js:2-3). The template destructures the event and normalises
  the method, path and query string there (iac/02-infra-setup/modules/lambda/lambda_code_template.js:6-9).
  An error there would reject the promise. That cannot happen here, because an `Event` is
  always a well-formed record.
- The internals of `JSON.parse` are left out: `JsRuntime.parse` stands for it.
- The internals of the `String(...)` coercion are left out: `JsRuntime.toText` stands for it.
- `JSON.stringify` output text is left out. Bodies stay structured values. Of its failures,
  only the `BigInt` `TypeError` is modelled. Cyclic objects cannot be written as a `Json` value.
- Timestamps are the opaque `now` argument. One handler call may read the clock more than once;
  here all reads give the same value.
- Numbers are integers, so floating point is left out: `NaN`, fractions, `-0`.
- Event fields other than the body and headers are strings or missing. Non-string values in
  `httpMethod`, `path` and `rawPath` are left out.
- Duplicate object keys are left out. JavaScript objects cannot have them; `Field` reads the
  first one.
- The front-end client (`packages/real-react-app/src/services/api.ts`) is not part of this
  model. It is network I/O around error-message selection.
- The React components and type declarations are not part of this model. They have no
  dispatch behaviour.
