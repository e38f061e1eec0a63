/**
 * The gin handlers of package app: a catalog of problems loaded once and read by
 * three handlers (health, list all, fetch by id). The package-level variable
 * `problems` is the field of class ProblemStore; the handlers read it and never
 * assign it, only LoadProblems does.
 */
module App {
  import opened Wrappers

  /** HTTP status codes the handlers answer with. */
  const StatusOK := 200
  const StatusServiceUnavailable := 503

  /** A catalog record: its identifier and the rest of its fields, passed through untouched. */
  datatype Problem = Problem(Id: string, Fields: map<string, string>)

  /** Go's zero value `domain.Problem{}`: every field at its zero value. */
  const ZeroProblem := Problem("", map[])

  /** What a handler writes as JSON: one shape per handler. */
  datatype Body =
    | HealthFail(status: string, reason: string)
    | HealthOk(status: string, problemsCount: nat)
    | ProblemList(problems: Option<seq<Problem>>)   // None encodes as JSON null
    | SingleProblem(problem: Problem)

  /** The status code and body passed to `c.JSON`. */
  datatype Reply = Reply(code: int, body: Body)

  /** The closure GetProblem hands to filter: does a record carry identifier `id`? */
  function HasId(id: string): (f: Problem -> bool)
    ensures forall p :: f(p) <==> p.Id == id
  {
    (p: Problem) => p.Id == id
  }

  /**
   * `r` is what a first-match search of `s` with predicate `f` must return: the
   * earliest element satisfying `f`, or the zero problem when none does.
   */
  ghost predicate IsFirstMatch(s: seq<Problem>, f: Problem -> bool, r: Problem) {
    || (exists i :: 0 <= i < |s| && f(s[i]) && r == s[i] && NoneMatchBefore(s, f, i))
    || (NoneMatchBefore(s, f, |s|) && r == ZeroProblem)
  }

  /** No element of `s` before index `n` satisfies `f`. */
  ghost predicate NoneMatchBefore(s: seq<Problem>, f: Problem -> bool, n: int)
    requires n <= |s|
  {
    forall j :: 0 <= j < n ==> !f(s[j])
  }

  /** filter: linear search that returns the first element satisfying `f`, or the zero problem. */
  method Filter(problems: seq<Problem>, f: Problem -> bool) returns (r: Problem)
    ensures IsFirstMatch(problems, f, r)
  {
    for i := 0 to |problems|
      invariant NoneMatchBefore(problems, f, i)
    {
      if f(problems[i]) {
        return problems[i];
      }
    }
    return ZeroProblem;
  }

  /** The first-match search has exactly one admissible answer. */
  lemma FirstMatchIsUnique(s: seq<Problem>, f: Problem -> bool, r1: Problem, r2: Problem)
    requires IsFirstMatch(s, f, r1) && IsFirstMatch(s, f, r2)
    ensures r1 == r2
  {
  }

  /** When several records match, the earliest one in catalog order is the answer. */
  lemma FirstMatchPicksEarliest(s: seq<Problem>, f: Problem -> bool, r: Problem, i: int)
    requires IsFirstMatch(s, f, r)
    requires 0 <= i < |s| && f(s[i]) && NoneMatchBefore(s, f, i)
    ensures r == s[i]
  {
  }

  /** Lookup by identifier: a record with identifier `id` in the catalog is found, with that identifier. */
  lemma LookupFindsPresentId(s: seq<Problem>, id: string, r: Problem)
    requires IsFirstMatch(s, HasId(id), r)
    requires exists q :: q in s && q.Id == id
    ensures r in s && r.Id == id
  {
  }

  /** Lookup by identifier: an identifier absent from the catalog yields the zero problem. */
  lemma LookupMissesAbsentId(s: seq<Problem>, id: string, r: Problem)
    requires IsFirstMatch(s, HasId(id), r)
    requires forall q :: q in s ==> q.Id != id
    ensures r == ZeroProblem
  {
  }

  /** The package-level catalog and the handlers that read it. */
  class ProblemStore {
    /** `var problems []domain.Problem`: None is the nil slice Go starts with. */
    var problems: Option<seq<Problem>>

    constructor ()
      ensures problems == None
    {
      problems := None;
    }

    /** The records a `range` over the catalog visits (none for the nil slice). */
    function Records(): (s: seq<Problem>)
      reads this
      ensures problems.None? ==> s == []
      ensures problems.Some? ==> s == problems.value
    {
      problems.GetOr([])
    }

    /** True when the catalog is nil or empty, the condition HealthCheck reports as a failure. */
    predicate SetupFailed()
      reads this
    {
      problems == None || |problems.value| == 0
    }

    /** HealthCheck: 503 "fail" exactly when the catalog is nil or empty, else 200 "ok" with the record count. */
    function HealthCheck(): (r: Reply)
      reads this
      ensures r.code == StatusServiceUnavailable <==> SetupFailed()
      ensures r.code == StatusOK <==> !SetupFailed()
      ensures SetupFailed() ==> r.body == HealthFail("fail", "problems setup failed")
      ensures !SetupFailed() ==> r.body == HealthOk("ok", |Records()|) && |Records()| > 0
    {
      if problems == None || |problems.value| == 0 then
        Reply(StatusServiceUnavailable, HealthFail("fail", "problems setup failed"))
      else
        Reply(StatusOK, HealthOk("ok", |problems.value|))
    }

    /** GetProblems: 200 with the catalog itself, same records in the same order (nil stays nil). */
    function GetProblems(): (r: Reply)
      reads this
      ensures r.code == StatusOK && r.body.ProblemList?
      ensures r.body.problems.Some? <==> problems.Some?
      ensures r.body.problems.GetOr([]) == Records()
    {
      Reply(StatusOK, ProblemList(problems))
    }

    /**
     * GetProblem: always 200; the body is the first record whose Id is `id`, or the
     * zero problem when none has it. `id` is the value of the route parameter "id"
     * (gin gives "" when it is missing).
     */
    method GetProblem(id: string) returns (r: Reply)
      ensures r.code == StatusOK && r.body.SingleProblem?
      ensures IsFirstMatch(Records(), HasId(id), r.body.problem)
    {
      var found := Filter(Records(), HasId(id));
      r := Reply(StatusOK, SingleProblem(found));
    }

    /**
     * LoadProblems: assigns the catalog from the outcome of decoding the JSON stream
     * (the decoding itself is outside this model). On a decode error the error is
     * returned and the catalog keeps its previous value.
     */
    method LoadProblems(decoded: Result<Option<seq<Problem>>, string>) returns (err: Option<string>)
      modifies this
      ensures decoded.Success? ==> problems == decoded.value && err == None
      ensures decoded.Failure? ==> problems == old(problems) && err == Some(decoded.error)
    {
      match decoded
      case Failure(e) =>
        err := Some(e);
      case Success(v) =>
        problems := v;
        err := None;
    }
  }
}
