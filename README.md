# Problems catalog service: endpoint layer, catalog lookup and HTTP binding

A Dafny model of the core of a small read-only catalog service written in Go. A
catalog of "problem" records is loaded once and served by three queries: list
all, fetch by identifier, and health. The model has three parts, one module per
source file:

- `App` (`app/app.go`): the package-level catalog, as class `ProblemStore`, and the gin
  handlers `HealthCheck`, `GetProblems` and `GetProblem`. `filter` is a loop method
  with a first-match specification. `LoadProblems` assigns the catalog from a decode
  outcome that is passed in.
- `Transport` (`pkg/problm/transport.go`): the go-kit endpoints for `FindById`, `FindAll`
  and `HealthCheck`, and the logging middleware wrapped around each of them. It also has
  the `Endpoints` client methods, which turn responses back into Go `(value, error)` pairs.
  - The service behind the endpoints is three abstract total functions.
  - Requests and responses are one closed datatype with one variant per operation.
  - An endpoint is a partial function. Its precondition is the Go type assertion on the request.
  - Logging is the trace of records the endpoint returns alongside its result.
- `ServerHttp` (`problm/server_http.go`): the path-variable decoders, the payload each
  encoder writes, the two-route table, and the decode–endpoint–encode order in which a
  route is served.

`Wrappers` holds `Option`, which stands for a Go nil-able value, and `Result`.

Points where the code's behaviour may be unexpected:
- A nil catalog (never loaded, or loaded from JSON `null`) is answered by `GetProblems`
  as `null`, not as an empty array. `HealthCheck` treats nil and empty alike.
- `FindAll` returns the catalog as an already-encoded JSON string (`*string`), not as a
  sequence of records. The problems encoder writes that string verbatim.
- The routes are `/api/v1/problems` and `/api/v1/problems/{problemId}`. Health is not a
  route of the HTTP binding.

## Model

| member | source | states |
|---|---|---|
| `App.Filter` | app/app.go:46-54 | returns the earliest record satisfying the predicate, in catalog order, or the zero problem when no record does |
| `App.FirstMatchIsUnique` | app/app.go:46-54 | a first-match search has exactly one admissible answer, so repeated lookups give the same record |
| `App.FirstMatchPicksEarliest` | app/app.go:47-50 | when several records match, the one at the lowest index is returned |
| `App.LookupFindsPresentId` | app/app.go:28-34 | if some record has identifier `id`, the lookup returns a catalog record with that identifier |
| `App.LookupMissesAbsentId` | app/app.go:53 | if no record has identifier `id`, the lookup returns the zero problem |
| `App.HasId` | app/app.go:31-33 | the predicate GetProblem passes to filter holds of a record exactly when its Id equals `id` |
| `App.ProblemStore.constructor` | app/app.go:11 | the catalog starts as the nil slice |
| `App.ProblemStore.Records` | app/app.go:47 | a range over the nil catalog visits nothing; otherwise it visits the loaded records |
| `App.ProblemStore.HealthCheck` | app/app.go:13-20 | 503 with "fail"/"problems setup failed" exactly when the catalog is nil or empty; 200 with "ok" and the record count exactly when it is not |
| `App.ProblemStore.GetProblems` | app/app.go:23-25 | 200 with the catalog itself: same records, same order, nil stays nil |
| `App.ProblemStore.GetProblem` | app/app.go:28-34 | always 200; the body is the first record whose Id is `id`, or the zero problem |
| `App.ProblemStore.LoadProblems` | app/app.go:36-44 | a successful decode replaces the catalog and returns no error; a failed one returns its error and leaves the catalog as it was |
| `Transport.With` | pkg/problm/transport.go:47-48 | the tagged logger keeps the parent's key/value pairs as its prefix, followed by exactly the pair `[key, value]` |
| `Transport.Log` | pkg/problm/transport.go:115-116 | a record is the logger's pairs followed by the logged pair |
| `Transport.MakeProblemEndpoint` | pkg/problm/transport.go:11-20 | accepts every problem request; no transport error and nothing logged; a FindById failure gives a nil problem and Err set to the error's message; success gives the service's problem with Err "" |
| `Transport.MakeProblemsEndpoint` | pkg/problm/transport.go:22-31 | the same for FindAll: no transport error, failure gives (nil, message), success gives (problems, "") |
| `Transport.MakeHealthCheckEndpoint` | pkg/problm/transport.go:33-42 | the endpoint's error is the service's error, and the response carries the service's result in both cases |
| `Transport.Logged` | pkg/problm/transport.go:113-119 | the endpoint the logging middleware returns around `next` accepts what `next` accepts and returns exactly `next`'s response and error; its trace is one "calling endpoint" record, then `next`'s records, then one "called endpoint" record |
| `Transport.MakeServerEndpoints` | pkg/problm/transport.go:44-65 | each server endpoint accepts its own operation's request, answers what its own base endpoint answers, and logs exactly two records tagged "method" = FindById, FindAll or HealthCheck |
| `Transport.Endpoints.FindById` | pkg/problm/transport.go:73-85 | returns the endpoint's trace; a transport error is returned as the error; otherwise a non-empty Err becomes `Error(Err)` with a nil problem; otherwise the response's Problem with no error |
| `Transport.Endpoints.FindAll` | pkg/problm/transport.go:87-99 | the same over problemsResponse: transport error, then `Error(Err)`, then the response's Problems |
| `Transport.Endpoints.HealthCheck` | pkg/problm/transport.go:101-110 | the error is the endpoint's transport error, with a nil result; without one, the result is the response's HealthCheckResult |
| `Transport.FindByIdRoundTrip` | pkg/problm/transport.go:73-85 | client FindById over the problem endpoint gives back the service's result (nil problem beside an error) whenever the error message is non-empty |
| `Transport.FindByIdDropsEmptyMessage` | pkg/problm/transport.go:81-84 | a service error with an empty message becomes (nil, no error), so the non-empty condition of the round trip is needed |
| `Transport.FindAllRoundTrip` | pkg/problm/transport.go:87-99 | client FindAll over the problems endpoint gives back the service's result whenever the error message is non-empty |
| `Transport.FindAllDropsEmptyMessage` | pkg/problm/transport.go:95-98 | a FindAll error with an empty message is lost the same way |
| `Transport.HealthCheckRoundTrip` | pkg/problm/transport.go:101-110 | client HealthCheck over the health endpoint gives back the service's result with no condition on the message |
| `Transport.ServerEndpointsRoundTrip` | pkg/problm/transport.go:44-65 | over MakeServerEndpoints, all three client methods give back the service's results, each with exactly its two tagged log records |
| `ServerHttp.DecodeProblemRequest` | problm/server_http.go:11-21 | ErrBadRouting exactly when "problemId" is absent; otherwise a problem request whose id is that variable's value |
| `ServerHttp.DecodeProblemsRequest` | problm/server_http.go:28-30 | always an empty problems request, whatever the path variables |
| `ServerHttp.EncodeProblemResponse` | problm/server_http.go:23-26 | the body is the response's Problem and nothing else |
| `ServerHttp.EncodeProblemIgnoresErr` | problm/server_http.go:25 | two problem responses that differ only in Err encode to the same body |
| `ServerHttp.EncodeProblemsResponse` | problm/server_http.go:32-38 | defined only for a non-nil Problems pointer; writes that string verbatim |
| `ServerHttp.FailedFindAllReachesNilDereference` | problm/server_http.go:33-34 | after a FindAll failure the server endpoint returns no transport error and a nil Problems pointer, which the encoder then dereferences |
| `ServerHttp.EncodeProblemsResponseChecked` | problm/server_http.go:32-38 | agrees with the unchecked encoder on every non-nil pointer and writes the JSON `null` for a nil one, as the problem encoder does for a nil Problem |
| `ServerHttp.MakeHTTPHandler` | problm/server_http.go:40-53 | exactly two GET routes on distinct paths: `/api/v1/problems` to the problems endpoint and `/api/v1/problems/{problemId}` to the problem endpoint, each with its own operation's decoder and encoder |
| `ServerHttp.Serve` | problm/server_http.go:42-51 | an exchange stops at decoding exactly when the decoder fails, and then with the decoder's error |
| `ServerHttp.ServerEndpointsServeRoutes` | problm/server_http.go:40-53 | the server endpoints accept every request the route decoders produce and answer with the matching response variant |
| `ServerHttp.MissingProblemIdNeverReachesEndpoint` | problm/server_http.go:12-16 | without "problemId" the problem route ends in ErrBadRouting; no endpoint runs and nothing is logged |
| `ServerHttp.ServeProblemRoute` | problm/server_http.go:47-51 | with "problemId" the problem route always writes a body: the service's problem, or null after a failure; the error string never reaches the wire |
| `ServerHttp.ServeProblemsRoute` | problm/server_http.go:42-46 | the problems route writes the service's JSON string verbatim; after a failed FindAll or a nil string it writes `null`, with the two FindAll records either way |

## Findings

| source | as written | input that shows it | evidently intended | confidence | as-written member | corrected member |
|---|---|---|---|---|---|---|
| problm/server_http.go:33-34 | `encodeProblemsResponse` dereferences `Problems` unconditionally, but `MakeProblemsEndpoint` (pkg/problm/transport.go:26-28) sets it to nil and reports no transport error when `FindAll` fails | the service's `FindAll` returns `(nil, errors.New("x"))`; then `GET /api/v1/problems` dereferences a nil pointer | the failure is written as data, a `null` body, as `encodeProblemRequest` already does for the nil Problem that `MakeProblemEndpoint` returns after a failed FindById (problm/server_http.go:25, pkg/problm/transport.go:16) | medium; not executed | `ServerHttp.FailedFindAllReachesNilDereference` | `ServerHttp.EncodeProblemsResponseChecked` |

`ServerHttp.Serve` uses the checked encoder.

## Left out

- `main.go`: the gin router and the network listener are not modelled.
- Decoding the catalog's JSON stream. `LoadProblems` takes the decode outcome as a parameter.
- `App.ProblemStore.LoadProblems`: does not model a decode that fails part-way and leaves a partly filled slice. The model keeps the previous catalog on any decode error.
- gin's `Context`: `GetProblem` takes the value of the "id" route parameter as an argument. gin gives "" when that parameter is missing.
- gorilla mux path matching: a route is served with its path variables already extracted.
- JSON encoding, the Content-Type header and the `ResponseWriter` writes. Only the choice of payload is kept. The I/O error a write can return is not modelled.
- go-kit's `NewServer` internals and the HTTP status its error encoder chooses. Status codes are not modelled, so neither is the status a routing failure produces.
- `context.Context`, cancellation, deadlines and concurrency. The catalog is fully loaded before any request is served.
- The `ProblemsService` implementation, `pb.Problem`, `pb.HealthCheckResponse` and the value of `ErrBadRouting` are not part of this model. They are abstract types or abstract functions here.
- Go error identity: `errors.New(err.Error())` is modelled as the same error, because only the message is kept.
- Panics: a failed type assertion is a precondition. The deferred "called endpoint" record after a panic is not modelled.
- The logger backend: logging is a returned trace of key/value records.
- `Transport.MakeProblemEndpoint`: states that the endpoint accepts every problem request, not that it refuses other request kinds. Dafny gives a lambda's precondition in one direction only.
- `Transport.MakeProblemsEndpoint`: the same one-direction statement about accepted requests.
- `Transport.MakeHealthCheckEndpoint`: the same one-direction statement about accepted requests.
- `Transport.Logged`: states that the wrapped endpoint accepts whatever `next` accepts, not the converse.
- `Transport.MakeServerEndpoints`: the same one-direction statement about accepted requests.
- `TransportLoggingMiddleware` itself carries no contract: a function's contract cannot quantify over all endpoints, so its promise is stated by `Transport.Logged`, the endpoint it returns.
