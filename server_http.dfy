/**
 * The HTTP binding of package problm: decoders from the router's path variables to
 * requests, encoders from responses to bodies, and the table of two GET routes.
 * A route is served by decoding, calling the bound endpoint and encoding, in that
 * order; a failure at any step stops the exchange there.
 */
module ServerHttp {
  import opened Wrappers
  import opened Transport

  /** ErrBadRouting, declared elsewhere in the package: a path variable the route should supply is missing. */
  datatype RoutingError = ErrBadRouting

  /** What an encoder writes as the JSON body (the header and the write itself are not modelled). */
  datatype Body =
    | ProblemJson(problem: Option<PbProblem>)   // json.Encode of *pb.Problem: nil is `null`
    | RawJson(text: string)                     // bytes written verbatim

  // ---------------------------------------------------------------------------
  // Decoders

  /** decodeProblemRequest: the "problemId" path variable becomes the request, or ErrBadRouting when absent. */
  function DecodeProblemRequest(vars: map<string, string>): (r: Result<Request, RoutingError>)
    ensures r.Failure? <==> "problemId" !in vars
    ensures r.Failure? ==> r.error == ErrBadRouting
    ensures r.Success? ==> r.value.ProblemRequest? && r.value.problemId == vars["problemId"]
  {
    if "problemId" in vars then Success(ProblemRequest(vars["problemId"])) else Failure(ErrBadRouting)
  }

  /** decodeProblemsRequest: ignores the HTTP request and always succeeds. */
  function DecodeProblemsRequest(vars: map<string, string>): (r: Result<Request, RoutingError>)
    ensures r == Success(ProblemsRequest)
  {
    Success(ProblemsRequest)
  }

  // ---------------------------------------------------------------------------
  // Encoders

  /** encodeProblemRequest: only the Problem field reaches the wire; Err is dropped. */
  function EncodeProblemResponse(resp: Response): (b: Body)
    requires resp.ProblemResponse?
    ensures b.ProblemJson? && b.problem == resp.problem
  {
    ProblemJson(resp.problem)
  }

  /** The body of a problem response does not depend on its Err string. */
  lemma EncodeProblemIgnoresErr(problem: Option<PbProblem>, err1: string, err2: string)
    ensures EncodeProblemResponse(ProblemResponse(problem, err1)) == EncodeProblemResponse(ProblemResponse(problem, err2))
    ensures EncodeProblemResponse(ProblemResponse(problem, err1)) == ProblemJson(problem)
  {
  }

  /**
   * encodeProblemsResponse as written: dereferences the Problems pointer, so it is
   * defined only when that pointer is not nil, and then writes the string verbatim.
   */
  function EncodeProblemsResponse(resp: Response): (b: Body)
    requires resp.ProblemsResponse? && resp.problems.Some?
    ensures b == RawJson(resp.problems.value)
  {
    RawJson(resp.problems.value)
  }

  /**
   * A FindAll failure reaches encodeProblemsResponse with a nil Problems pointer:
   * the endpoint reports no transport error, so the server calls the encoder, whose
   * dereference is then undefined.
   */
  lemma FailedFindAllReachesNilDereference(svc: ProblemsService, logger: Logger)
    requires svc.findAll().err.Some?
    ensures var e := MakeServerEndpoints(svc, logger);
      && e.problemsEndpoint.requires(ProblemsRequest)
      && var t := e.problemsEndpoint(ProblemsRequest);
         && t.ret.err.None?
         && t.ret.value.ProblemsResponse?
         && !(t.ret.value.ProblemsResponse? && t.ret.value.problems.Some?)
  {
  }

  /**
   * encodeProblemsResponse with the nil check it lacks: a nil Problems pointer is
   * written as the JSON `null`, the body encodeProblemRequest writes for a nil
   * Problem, so a failed FindAll still ends in a written body; otherwise it writes
   * exactly what the unchecked encoder writes.
   */
  function EncodeProblemsResponseChecked(resp: Response): (b: Body)
    requires resp.ProblemsResponse?
    ensures resp.problems.Some? ==> b == EncodeProblemsResponse(resp)
    ensures resp.problems.None? ==> b == RawJson("null")
  {
    match resp.problems
    case Some(text) => RawJson(text)
    case None => RawJson("null")
  }

  // ---------------------------------------------------------------------------
  // The route table

  /** Which field of Endpoints a route calls. */
  datatype EndpointName = ProblemsEndpoint | ProblemEndpoint

  datatype Decoder = ProblemsDecoder | ProblemDecoder

  datatype Encoder = ProblemsEncoder | ProblemEncoder

  /** One `r.Methods(m).Path(p).Handler(httptransport.NewServer(endpoint, decoder, encoder))` registration. */
  datatype Route = Route(verb: string, path: string, endpoint: EndpointName, decoder: Decoder, encoder: Encoder)

  /** The decoder and encoder of a route belong to the operation of its endpoint. */
  predicate Consistent(route: Route) {
    match route.endpoint
    case ProblemsEndpoint => route.decoder == ProblemsDecoder && route.encoder == ProblemsEncoder
    case ProblemEndpoint => route.decoder == ProblemDecoder && route.encoder == ProblemEncoder
  }

  const ProblemsPath := "/api/v1/problems"
  const ProblemPath := "/api/v1/problems/{problemId}"

  /** MakeHTTPHandler's route table: two GET routes, each with its own decoder and encoder. */
  function MakeHTTPHandler(): (routes: seq<Route>)
    ensures |routes| == 2
    ensures forall i :: 0 <= i < |routes| ==> routes[i].verb == "GET" && Consistent(routes[i])
    ensures routes[0].path == ProblemsPath && routes[0].endpoint == ProblemsEndpoint
    ensures routes[1].path == ProblemPath && routes[1].endpoint == ProblemEndpoint
    ensures routes[0].path != routes[1].path
  {
    [ Route("GET", ProblemsPath, ProblemsEndpoint, ProblemsDecoder, ProblemsEncoder),
      Route("GET", ProblemPath, ProblemEndpoint, ProblemDecoder, ProblemEncoder) ]
  }

  // ---------------------------------------------------------------------------
  // Serving a route

  /** How one HTTP exchange ends; the trace is what the endpoint logged, empty when it never ran. */
  datatype Exchange =
    | DecodeFailed(routingError: RoutingError)
    | EndpointFailed(err: Error, trace: seq<Record>)
    | Written(body: Body, trace: seq<Record>)

  /** The endpoints accept every request the route decoders can produce and answer with the matching response. */
  ghost predicate ServesRoutes(e: Endpoints) {
    && (forall problemId :: e.AnswersFindById(problemId))
    && e.AnswersFindAll()
  }

  function Decode(decoder: Decoder, vars: map<string, string>): Result<Request, RoutingError> {
    match decoder
    case ProblemsDecoder => DecodeProblemsRequest(vars)
    case ProblemDecoder => DecodeProblemRequest(vars)
  }

  function Select(e: Endpoints, name: EndpointName): Endpoint {
    match name
    case ProblemsEndpoint => e.problemsEndpoint
    case ProblemEndpoint => e.problemEndpoint
  }

  /**
   * The server built for `route` handling a request whose path variables are `vars`:
   * decode, then call the endpoint, then encode (with the nil-checked problems encoder).
   * Go's error encoder and the write's I/O error are outside this model, so encoding
   * always ends in a written body.
   */
  ghost function Serve(e: Endpoints, route: Route, vars: map<string, string>): (x: Exchange)
    requires ServesRoutes(e) && Consistent(route)
    ensures x.DecodeFailed? <==> Decode(route.decoder, vars).Failure?
    ensures x.DecodeFailed? ==> x.routingError == Decode(route.decoder, vars).error
  {
    var d := Decode(route.decoder, vars);
    if d.Failure? then
      DecodeFailed(d.error)
    else
      assert route.endpoint == ProblemEndpoint ==> e.AnswersFindById(d.value.problemId);
      var t := Select(e, route.endpoint)(d.value);
      if t.ret.err.Some? then
        EndpointFailed(t.ret.err.value, t.trace)
      else match route.encoder
        case ProblemEncoder => Written(EncodeProblemResponse(t.ret.value), t.trace)
        case ProblemsEncoder => Written(EncodeProblemsResponseChecked(t.ret.value), t.trace)
  }

  /** The server endpoints accept and answer everything the route table can send them. */
  lemma ServerEndpointsServeRoutes(svc: ProblemsService, logger: Logger)
    ensures ServesRoutes(MakeServerEndpoints(svc, logger))
  {
  }

  /** A request to the problem route without "problemId" fails at decoding: no endpoint runs, nothing is logged. */
  lemma MissingProblemIdNeverReachesEndpoint(e: Endpoints, vars: map<string, string>)
    requires ServesRoutes(e)
    requires "problemId" !in vars
    ensures Serve(e, MakeHTTPHandler()[1], vars) == DecodeFailed(ErrBadRouting)
  {
  }

  /**
   * The problem route over the server endpoints always writes a body: the service's
   * problem, or null when FindById failed (the error string stays off the wire).
   */
  lemma ServeProblemRoute(svc: ProblemsService, logger: Logger, vars: map<string, string>)
    requires "problemId" in vars
    ensures ServesRoutes(MakeServerEndpoints(svc, logger))
    ensures var r := svc.findById(vars["problemId"]);
      Serve(MakeServerEndpoints(svc, logger), MakeHTTPHandler()[1], vars)
        == Written(ProblemJson(if r.err.Some? then None else r.value), Bracket(Tagged(logger, "FindById")))
  {
  }

  /**
   * The problems route over the server endpoints writes the service's JSON string
   * verbatim; a failed FindAll, or a nil string, writes the JSON `null` instead.
   */
  lemma ServeProblemsRoute(svc: ProblemsService, logger: Logger, vars: map<string, string>)
    ensures ServesRoutes(MakeServerEndpoints(svc, logger))
    ensures var r := svc.findAll();
      var x := Serve(MakeServerEndpoints(svc, logger), MakeHTTPHandler()[0], vars);
      && x.trace == Bracket(Tagged(logger, "FindAll"))
      && (r.err.None? && r.value.Some? ==> x == Written(RawJson(r.value.value), x.trace))
      && (r.err.Some? ==> x == Written(RawJson("null"), x.trace))
      && (r.err.None? && r.value.None? ==> x == Written(RawJson("null"), x.trace))
  {
  }
}
