/**
 * The go-kit endpoint layer of package problm: one endpoint per service operation,
 * a logging middleware wrapped around each, and client methods on Endpoints that
 * turn the responses back into Go (value, error) returns.
 *
 * Go's `interface{}` requests and responses are a closed datatype with one variant
 * per operation; an endpoint is a partial function whose precondition is the type
 * assertion the Go closure makes on its request.
 */
module Transport {
  import opened Wrappers

  /** `pb.Problem`, declared outside this package. */
  type PbProblem

  /** `pb.HealthCheckResponse`, declared outside this package. */
  type HealthCheckResult

  /** A Go `error`: `Error()` gives `message`, `errors.New(m)` builds `Error(m)`. */
  datatype Error = Error(message: string)

  /** A Go `(T, error)` return pair; `err == None` is a nil error. */
  datatype Ret<+T> = Ret(value: T, err: Option<Error>)

  /**
   * The ProblemsService interface, whose implementation is not part of this model:
   * three total functions (the context argument is dropped).
   */
  datatype ProblemsService = ProblemsService(
    findById: string -> Ret<Option<PbProblem>>,
    findAll: () -> Ret<Option<string>>,
    healthCheck: () -> Ret<Option<HealthCheckResult>>)

  /** problemRequest, problemsRequest, healthCheckRequest. */
  datatype Request =
    | ProblemRequest(problemId: string)
    | ProblemsRequest
    | HealthCheckRequest

  /** problemResponse, problemsResponse, healthCheckResponse: business errors are the `err` string. */
  datatype Response =
    | ProblemResponse(problem: Option<PbProblem>, err: string)
    | ProblemsResponse(problems: Option<string>, err: string)
    | HealthCheckResponse(healthCheckResult: Option<HealthCheckResult>)

  /** A go-kit logger: the key/value pairs `log.With` has attached to it. */
  datatype Logger = Logger(context: seq<string>)

  /** One line the logger writes: its key/value pairs in order. */
  datatype Record = Record(keyvals: seq<string>)

  const CallingEndpoint := "calling endpoint"
  const CalledEndpoint := "called endpoint"

  /** `log.With(logger, key, value)`: a logger that prefixes every record with the pair. */
  function With(logger: Logger, key: string, value: string): (l: Logger)
    ensures |l.context| == |logger.context| + 2
    ensures l.context[..|logger.context|] == logger.context
    ensures l.context[|logger.context|..] == [key, value]
  {
    Logger(logger.context + [key, value])
  }

  /** The record `logger.Log(key, value)` writes. */
  function Log(logger: Logger, key: string, value: string): (r: Record)
    ensures |r.keyvals| == |logger.context| + 2
    ensures r.keyvals[..|logger.context|] == logger.context
    ensures r.keyvals[|logger.context|..] == [key, value]
  {
    Record(logger.context + [key, value])
  }

  /** A return pair together with the records logged while computing it. */
  datatype Traced<+T> = Traced(ret: Ret<T>, trace: seq<Record>)

  /** endpoint.Endpoint: its precondition is the type assertion on the request. */
  type Endpoint = Request --> Traced<Response>

  /** endpoint.Middleware. */
  type Middleware = Endpoint -> Endpoint

  /**
   * MakeProblemEndpoint: accepts every problem request, logs nothing and never reports
   * a transport error; a FindById failure becomes a nil problem with Err set to the
   * error's message, a success the service's problem with Err "".
   */
  function MakeProblemEndpoint(svc: ProblemsService): (e: Endpoint)
    ensures forall request: Request | request.ProblemRequest? ::
      && e.requires(request)
      && var r := svc.findById(request.problemId);
         && e(request).ret.err.None? && e(request).trace == []
         && (r.err.Some? ==> e(request).ret.value == ProblemResponse(None, r.err.value.message))
         && (r.err.None? ==> e(request).ret.value == ProblemResponse(r.value, ""))
  {
    (request: Request) requires request.ProblemRequest? =>
      var r := svc.findById(request.problemId);
      if r.err.Some? then
        Traced(Ret(ProblemResponse(None, r.err.value.message), None), [])
      else
        Traced(Ret(ProblemResponse(r.value, ""), None), [])
  }

  /** MakeProblemsEndpoint: the same for FindAll, over problemsResponse. */
  function MakeProblemsEndpoint(svc: ProblemsService): (e: Endpoint)
    ensures e.requires(ProblemsRequest)
    ensures var r := svc.findAll();
      && e(ProblemsRequest).ret.err.None? && e(ProblemsRequest).trace == []
      && (r.err.Some? ==> e(ProblemsRequest).ret.value == ProblemsResponse(None, r.err.value.message))
      && (r.err.None? ==> e(ProblemsRequest).ret.value == ProblemsResponse(r.value, ""))
  {
    (request: Request) requires request.ProblemsRequest? =>
      var r := svc.findAll();
      if r.err.Some? then
        Traced(Ret(ProblemsResponse(None, r.err.value.message), None), [])
      else
        Traced(Ret(ProblemsResponse(r.value, ""), None), [])
  }

  /**
   * MakeHealthCheckEndpoint: the service's error is passed on as the transport error,
   * and the response carries the service's result whether or not there is one.
   */
  function MakeHealthCheckEndpoint(svc: ProblemsService): (e: Endpoint)
    ensures e.requires(HealthCheckRequest)
    ensures var r := svc.healthCheck();
      && e(HealthCheckRequest).ret == Ret(HealthCheckResponse(r.value), r.err)
      && e(HealthCheckRequest).trace == []
  {
    (request: Request) requires request.HealthCheckRequest? =>
      var r := svc.healthCheck();
      if r.err.Some? then
        Traced(Ret(HealthCheckResponse(r.value), r.err), [])
      else
        Traced(Ret(HealthCheckResponse(r.value), None), [])
  }

  /**
   * The endpoint TransportLoggingMiddleware returns around `next`: logs "calling
   * endpoint", calls `next`, and (deferred) logs "called endpoint". It accepts every
   * request `next` accepts and returns exactly `next`'s response and error.
   */
  function Logged(logger: Logger, next: Endpoint): (e: Endpoint)
    ensures forall request: Request | next.requires(request) ::
      && e.requires(request)
      && e(request).ret == next(request).ret
      && e(request).trace == [Log(logger, "msg", CallingEndpoint)] + next(request).trace + [Log(logger, "msg", CalledEndpoint)]
  {
    (request: Request) requires next.requires(request) =>
      var t := next(request);
      Traced(t.ret, [Log(logger, "msg", CallingEndpoint)] + t.trace + [Log(logger, "msg", CalledEndpoint)])
  }

  /** TransportLoggingMiddleware: the middleware that puts `Logged(logger, _)` around an endpoint. */
  function TransportLoggingMiddleware(logger: Logger): Middleware {
    (next: Endpoint) => Logged(logger, next)
  }

  /** The two records the middleware built from `logger` brackets a call with. */
  function Bracket(logger: Logger): seq<Record> {
    [Log(logger, "msg", CallingEndpoint), Log(logger, "msg", CalledEndpoint)]
  }

  /** The logger the server endpoints tag an operation's records with. */
  function Tagged(logger: Logger, operation: string): Logger {
    With(logger, "method", operation)
  }

  /**
   * MakeServerEndpoints: each server endpoint accepts its own operation's request,
   * answers what its base endpoint answers, and logs exactly two records tagged
   * with its operation's name.
   */
  function MakeServerEndpoints(svc: ProblemsService, logger: Logger): (e: Endpoints)
    ensures forall problemId: string ::
      && e.problemEndpoint.requires(ProblemRequest(problemId))
      && e.problemEndpoint(ProblemRequest(problemId)).ret == MakeProblemEndpoint(svc)(ProblemRequest(problemId)).ret
      && e.problemEndpoint(ProblemRequest(problemId)).trace == Bracket(Tagged(logger, "FindById"))
    ensures && e.problemsEndpoint.requires(ProblemsRequest)
            && e.problemsEndpoint(ProblemsRequest).ret == MakeProblemsEndpoint(svc)(ProblemsRequest).ret
            && e.problemsEndpoint(ProblemsRequest).trace == Bracket(Tagged(logger, "FindAll"))
    ensures && e.healthCheckEndpoint.requires(HealthCheckRequest)
            && e.healthCheckEndpoint(HealthCheckRequest).ret == MakeHealthCheckEndpoint(svc)(HealthCheckRequest).ret
            && e.healthCheckEndpoint(HealthCheckRequest).trace == Bracket(Tagged(logger, "HealthCheck"))
  {
    var problemEndpoint := TransportLoggingMiddleware(Tagged(logger, "FindById"))(MakeProblemEndpoint(svc));
    var problemsEndpoint := TransportLoggingMiddleware(Tagged(logger, "FindAll"))(MakeProblemsEndpoint(svc));
    var healthCheckEndpoint := TransportLoggingMiddleware(Tagged(logger, "HealthCheck"))(MakeHealthCheckEndpoint(svc));
    Endpoints(problemEndpoint, problemsEndpoint, healthCheckEndpoint)
  }

  /** The Endpoints struct and its client methods. */
  datatype Endpoints = Endpoints(
    problemEndpoint: Endpoint,
    problemsEndpoint: Endpoint,
    healthCheckEndpoint: Endpoint)
  {
    /** The problem endpoint accepts the request and, if it reports no error, answers a problemResponse. */
    ghost predicate AnswersFindById(problemId: string) {
      && problemEndpoint.requires(ProblemRequest(problemId))
      && var t := problemEndpoint(ProblemRequest(problemId));
         t.ret.err.Some? || t.ret.value.ProblemResponse?
    }

    ghost predicate AnswersFindAll() {
      && problemsEndpoint.requires(ProblemsRequest)
      && var t := problemsEndpoint(ProblemsRequest);
         t.ret.err.Some? || t.ret.value.ProblemsResponse?
    }

    ghost predicate AnswersHealthCheck() {
      && healthCheckEndpoint.requires(HealthCheckRequest)
      && var t := healthCheckEndpoint(HealthCheckRequest);
         t.ret.err.Some? || t.ret.value.HealthCheckResponse?
    }

    /** Endpoints.FindById: transport error, then the response's Err, then the problem. */
    function FindById(problemId: string): (r: Traced<Option<PbProblem>>)
      requires AnswersFindById(problemId)
      ensures r.trace == problemEndpoint(ProblemRequest(problemId)).trace
      ensures r.ret.err.Some? ==> r.ret.value.None?
      ensures var t := problemEndpoint(ProblemRequest(problemId));
        && (t.ret.err.Some? ==> r.ret.err == t.ret.err)
        && (t.ret.err.None? && t.ret.value.err != "" ==> r.ret.err == Some(Error(t.ret.value.err)))
        && (r.ret.err.None? <==> t.ret.err.None? && t.ret.value.err == "")
        && (r.ret.err.None? ==> r.ret.value == t.ret.value.problem)
    {
      var t := problemEndpoint(ProblemRequest(problemId));
      if t.ret.err.Some? then
        Traced(Ret(None, t.ret.err), t.trace)
      else if t.ret.value.err != "" then
        Traced(Ret(None, Some(Error(t.ret.value.err))), t.trace)
      else
        Traced(Ret(t.ret.value.problem, None), t.trace)
    }

    /** Endpoints.FindAll: the same shape over problemsResponse. */
    function FindAll(): (r: Traced<Option<string>>)
      requires AnswersFindAll()
      ensures r.trace == problemsEndpoint(ProblemsRequest).trace
      ensures r.ret.err.Some? ==> r.ret.value.None?
      ensures var t := problemsEndpoint(ProblemsRequest);
        && (t.ret.err.Some? ==> r.ret.err == t.ret.err)
        && (t.ret.err.None? && t.ret.value.err != "" ==> r.ret.err == Some(Error(t.ret.value.err)))
        && (r.ret.err.None? <==> t.ret.err.None? && t.ret.value.err == "")
        && (r.ret.err.None? ==> r.ret.value == t.ret.value.problems)
    {
      var t := problemsEndpoint(ProblemsRequest);
      if t.ret.err.Some? then
        Traced(Ret(None, t.ret.err), t.trace)
      else if t.ret.value.err != "" then
        Traced(Ret(None, Some(Error(t.ret.value.err))), t.trace)
      else
        Traced(Ret(t.ret.value.problems, None), t.trace)
    }

    /** Endpoints.HealthCheck: a transport error, or the response's result. */
    function HealthCheck(): (r: Traced<Option<HealthCheckResult>>)
      requires AnswersHealthCheck()
      ensures r.trace == healthCheckEndpoint(HealthCheckRequest).trace
      ensures r.ret.err == healthCheckEndpoint(HealthCheckRequest).ret.err
      ensures r.ret.err.Some? ==> r.ret.value.None?
      ensures r.ret.err.None? ==> r.ret.value == healthCheckEndpoint(HealthCheckRequest).ret.value.healthCheckResult
    {
      var t := healthCheckEndpoint(HealthCheckRequest);
      if t.ret.err.Some? then
        Traced(Ret(None, t.ret.err), t.trace)
      else
        Traced(Ret(t.ret.value.healthCheckResult, None), t.trace)
    }
  }

  /** A Go return as a caller sees it by convention: the value is nil whenever the error is not. */
  function Canonical<T>(r: Ret<Option<T>>): (c: Ret<Option<T>>)
    ensures c.err == r.err
    ensures r.err.None? ==> c == r
    ensures r.err.Some? ==> c.value.None?
  {
    if r.err.Some? then Ret(None, r.err) else r
  }

  /** Every error in `r` has a non-empty message. */
  predicate MessageNonEmpty<T>(r: Ret<T>) {
    r.err.Some? ==> r.err.value.message != ""
  }

  // ---------------------------------------------------------------------------
  // Round trips: client method after endpoint gives back the service's result.

  /**
   * Endpoints.FindById over any endpoint that answers what MakeProblemEndpoint
   * answers returns the service's result, in its conventional form (nil problem
   * beside an error), provided the service's error message is not empty.
   */
  lemma FindByIdRoundTrip(svc: ProblemsService, e: Endpoints, problemId: string)
    requires MessageNonEmpty(svc.findById(problemId))
    requires e.problemEndpoint.requires(ProblemRequest(problemId))
    requires e.problemEndpoint(ProblemRequest(problemId)).ret == MakeProblemEndpoint(svc)(ProblemRequest(problemId)).ret
    ensures e.AnswersFindById(problemId)
    ensures e.FindById(problemId).ret == Canonical(svc.findById(problemId))
    ensures svc.findById(problemId).err.Some? && svc.findById(problemId).value.None? ==>
              e.FindById(problemId).ret == svc.findById(problemId)
  {
  }

  /** An error with an empty message is lost: the client reports neither a problem nor an error. */
  lemma FindByIdDropsEmptyMessage(svc: ProblemsService, e: Endpoints, problemId: string)
    requires svc.findById(problemId).err == Some(Error(""))
    requires e.problemEndpoint.requires(ProblemRequest(problemId))
    requires e.problemEndpoint(ProblemRequest(problemId)).ret == MakeProblemEndpoint(svc)(ProblemRequest(problemId)).ret
    ensures e.AnswersFindById(problemId)
    ensures e.FindById(problemId).ret == Ret(None, None)
  {
  }

  /** Endpoints.FindAll has the same round trip over problemsResponse. */
  lemma FindAllRoundTrip(svc: ProblemsService, e: Endpoints)
    requires MessageNonEmpty(svc.findAll())
    requires e.problemsEndpoint.requires(ProblemsRequest)
    requires e.problemsEndpoint(ProblemsRequest).ret == MakeProblemsEndpoint(svc)(ProblemsRequest).ret
    ensures e.AnswersFindAll()
    ensures e.FindAll().ret == Canonical(svc.findAll())
    ensures svc.findAll().err.Some? && svc.findAll().value.None? ==> e.FindAll().ret == svc.findAll()
  {
  }

  /** An empty FindAll error message is lost the same way. */
  lemma FindAllDropsEmptyMessage(svc: ProblemsService, e: Endpoints)
    requires svc.findAll().err == Some(Error(""))
    requires e.problemsEndpoint.requires(ProblemsRequest)
    requires e.problemsEndpoint(ProblemsRequest).ret == MakeProblemsEndpoint(svc)(ProblemsRequest).ret
    ensures e.AnswersFindAll()
    ensures e.FindAll().ret == Ret(None, None)
  {
  }

  /** Endpoints.HealthCheck returns the service's result whatever its error message, since errors travel as transport errors. */
  lemma HealthCheckRoundTrip(svc: ProblemsService, e: Endpoints)
    requires e.healthCheckEndpoint.requires(HealthCheckRequest)
    requires e.healthCheckEndpoint(HealthCheckRequest).ret == MakeHealthCheckEndpoint(svc)(HealthCheckRequest).ret
    ensures e.AnswersHealthCheck()
    ensures e.HealthCheck().ret == Canonical(svc.healthCheck())
  {
  }

  /**
   * The assembled server endpoints: every client method gives back the service's
   * result and logs exactly the two records tagged with its operation.
   */
  lemma ServerEndpointsRoundTrip(svc: ProblemsService, logger: Logger, problemId: string)
    requires MessageNonEmpty(svc.findById(problemId)) && MessageNonEmpty(svc.findAll())
    ensures var e := MakeServerEndpoints(svc, logger);
      && e.AnswersFindById(problemId) && e.AnswersFindAll() && e.AnswersHealthCheck()
      && e.FindById(problemId) == Traced(Canonical(svc.findById(problemId)), Bracket(Tagged(logger, "FindById")))
      && e.FindAll() == Traced(Canonical(svc.findAll()), Bracket(Tagged(logger, "FindAll")))
      && e.HealthCheck() == Traced(Canonical(svc.healthCheck()), Bracket(Tagged(logger, "HealthCheck")))
  {
  }
}
