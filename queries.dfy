/** The bounded-retry queries of the assistant (findServices, getAllServices,
    startSharedAuth), the retry decision they share (shouldRetry) and the per-call
    wrappers that notify the failure callback (find, getAll,
    startSharedAuthentication).

    The environment is a script of rounds, one per iteration of the do-while: the
    login the connection reports, what the underlying call does, whether the
    failure callback throws, and whether shutdown() was called while the iteration
    ran (observed by the retry decision that ends it). Sleeps are no-ops. */
module Queries {
  import opened Wrappers
  import opened Bus

  /** Which call a query loop makes, and therefore which callback it notifies:
      find and getAll notify onFindFailure, startSharedAuthentication notifies
      onStartSharedAuthFailure. */
  datatype QueryKind = FindKind | SharedAuthKind

  function Notice(kind: QueryKind, e: Exception): Failure {
    match kind
    case FindKind => FindFailure(e)
    case SharedAuthKind => StartSharedAuthFailure(e)
  }

  /** What the underlying registry or connection call does: return a possibly
      null result, or throw. */
  datatype Reply<T> = Answer(result: Option<T>) | Raise(cause: Exception)

  /** What a per-call wrapper does: return the call's result or rethrow its
      exception, together with the callback invocations it made. */
  datatype Guarded<T> = Guarded(result: Result<Option<T>, Exception>, fired: seq<Failure>)

  /** The try/catch/finally shared by find, getAll and startSharedAuthentication.
      The callback's own exception (`callbackThrows`) is logged and dropped. */
  function Guard<T>(kind: QueryKind, reply: Reply<T>, callbackThrows: bool): (g: Guarded<T>)
    ensures g.result.Failure? <==> reply.Raise?
    ensures reply.Raise? ==> g.result.error == reply.cause && g.fired == [Notice(kind, reply.cause)]
    ensures reply.Answer? ==> g.result == Success(reply.result) && g.fired == []
  {
    match reply
    case Answer(v) => Guarded(Success(v), [])
    case Raise(e) => Guarded(Failure(e), [Notice(kind, e)])
  }

  /** find(props): offerRegistry.findServices(props) wrapped for failure notification. */
  function Find(reply: Reply<seq<OfferDesc>>, callbackThrows: bool): (g: Guarded<seq<OfferDesc>>)
    ensures reply.Raise? ==> g == Guarded(Failure(reply.cause), [FindFailure(reply.cause)])
    ensures reply.Answer? ==> g == Guarded(Success(reply.result), [])
  {
    Guard(FindKind, reply, callbackThrows)
  }

  /** getAll(): offerRegistry.getAllServices() wrapped for failure notification. */
  function GetAll(reply: Reply<seq<OfferDesc>>, callbackThrows: bool): (g: Guarded<seq<OfferDesc>>)
    ensures reply.Raise? ==> g == Guarded(Failure(reply.cause), [FindFailure(reply.cause)])
    ensures reply.Answer? ==> g == Guarded(Success(reply.result), [])
  {
    Guard(FindKind, reply, callbackThrows)
  }

  /** startSharedAuthentication(): conn.startSharedAuth() wrapped for failure notification. */
  function StartSharedAuthentication(reply: Reply<SharedAuthSecret>, callbackThrows: bool): (g: Guarded<SharedAuthSecret>)
    ensures reply.Raise? ==> g == Guarded(Failure(reply.cause), [StartSharedAuthFailure(reply.cause)])
    ensures reply.Answer? ==> g == Guarded(Success(reply.result), [])
  {
    Guard(SharedAuthKind, reply, callbackThrows)
  }

  /** shouldRetry(retries, attempt) without its sleep: a negative `retries` retries
      until shutdown, otherwise `attempt` must not have dropped below zero. */
  function ShouldRetry(retries: int, attempt: int, shutdown: bool): (retry: bool)
    ensures retry ==> !shutdown
    ensures retries >= 0 ==> (retry <==> attempt >= 0 && !shutdown)
    ensures retries < 0 ==> (retry <==> !shutdown)
  {
    (retries < 0 || attempt >= 0) && !shutdown
  }

  /** What the environment does during one iteration of a query loop. */
  datatype QueryRound<T> = QueryRound(
    login: Option<LoginInfo>,
    reply: Reply<T>,
    callbackThrows: bool,
    shutdownRequested: bool)

  /** The iteration returns: there is a login and the call answers non-null. */
  predicate Delivers<T>(rd: QueryRound<T>) {
    rd.login.Some? && rd.reply.Answer? && rd.reply.result.Some?
  }

  /** The script covers the whole run: it holds a round at which the loop must
      stop (a delivered result, a shutdown, or the last permitted attempt). */
  predicate QueryEnds<T>(retries: int, attempt: int, shutdown: bool, rounds: seq<QueryRound<T>>) {
    |rounds| > 0 &&
    (shutdown ||
     exists k :: 0 <= k < |rounds| &&
       (Delivers(rounds[k]) || rounds[k].shutdownRequested || (retries >= 0 && k >= attempt)))
  }

  datatype QueryOutcome<T> = Found(value: T) | Raised(cause: Exception) | NothingFound

  /** A whole query run: its outcome, the iterations it made, the underlying calls
      it made and the callbacks it invoked, in order. */
  datatype QueryRun<T> = QueryRun(outcome: QueryOutcome<T>, iterations: nat, calls: nat, fired: seq<Failure>)

  /** The body of one iteration: `last` is reset, the call is made only when a
      login exists. */
  datatype Iteration<T> = Iteration(returned: Option<T>, last: Option<Exception>, calls: nat, fired: seq<Failure>)

  function Iterate<T>(kind: QueryKind, rd: QueryRound<T>): (it: Iteration<T>)
    ensures it.returned.Some? <==> Delivers(rd)
    ensures it.returned.Some? ==> it.returned.value == rd.reply.result.value
    ensures it.last.Some? <==> rd.login.Some? && rd.reply.Raise?
    ensures it.last.Some? ==> it.last.value == rd.reply.cause
    ensures it.calls == (if rd.login.Some? then 1 else 0)
    ensures it.fired == (if rd.login.Some? && rd.reply.Raise? then [Notice(kind, rd.reply.cause)] else [])
  {
    if rd.login.None? then Iteration(None, None, 0, [])
    else
      var g := Guard(kind, rd.reply, rd.callbackThrows);
      match g.result
      case Failure(e) => Iteration(None, Some(e), 1, g.fired)
      case Success(v) => Iteration(v, None, 1, g.fired)
  }

  lemma QueryEndsTail<T>(retries: int, attempt: int, shutdown: bool, rounds: seq<QueryRound<T>>)
    requires QueryEnds(retries, attempt, shutdown, rounds)
    requires !Delivers(rounds[0])
    requires ShouldRetry(retries, attempt - 1, shutdown || rounds[0].shutdownRequested)
    ensures QueryEnds(retries, attempt - 1, shutdown || rounds[0].shutdownRequested, rounds[1..])
  {
    var k :| 0 <= k < |rounds| &&
      (Delivers(rounds[k]) || rounds[k].shutdownRequested || (retries >= 0 && k >= attempt));
    assert k > 0;
    assert rounds[1..][k - 1] == rounds[k];
  }

  /** Prefixes the iterations, calls and callbacks already made to a run. */
  function Then<T>(iterations: nat, calls: nat, fired: seq<Failure>, r: QueryRun<T>): QueryRun<T> {
    QueryRun(r.outcome, iterations + r.iterations, calls + r.calls, fired + r.fired)
  }

  /** The do-while of findServices, getAllServices and startSharedAuth, from the
      iteration where `attempt` attempts remain and the shutdown flag reads `shutdown`. */
  function QueryLoop<T>(kind: QueryKind, retries: int, attempt: int, shutdown: bool, rounds: seq<QueryRound<T>>): (r: QueryRun<T>)
    requires QueryEnds(retries, attempt, shutdown, rounds)
    ensures 1 <= r.iterations <= |rounds|
    decreases |rounds|
  {
    var it := Iterate(kind, rounds[0]);
    if it.returned.Some? then QueryRun(Found(it.returned.value), 1, it.calls, it.fired)
    else
      var sd := shutdown || rounds[0].shutdownRequested;
      if ShouldRetry(retries, attempt - 1, sd) then
        QueryEndsTail(retries, attempt, shutdown, rounds);
        Then(1, it.calls, it.fired, QueryLoop(kind, retries, attempt - 1, sd, rounds[1..]))
      else
        QueryRun(if it.last.Some? then Raised(it.last.value) else NothingFound, 1, it.calls, it.fired)
  }

  /** One unfolding of QueryLoop on the rounds from index `i` on. */
  lemma QueryLoopStep<T>(kind: QueryKind, retries: int, attempt: int, shutdown: bool, rounds: seq<QueryRound<T>>, i: nat)
    requires i < |rounds| && QueryEnds(retries, attempt, shutdown, rounds[i..])
    ensures var it := Iterate(kind, rounds[i]);
      var sd := shutdown || rounds[i].shutdownRequested;
      var r := QueryLoop(kind, retries, attempt, shutdown, rounds[i..]);
      && (it.returned.Some? ==> r == QueryRun(Found(it.returned.value), 1, it.calls, it.fired))
      && (it.returned.None? && ShouldRetry(retries, attempt - 1, sd) ==>
            QueryEnds(retries, attempt - 1, sd, rounds[i + 1..]) &&
            r == Then(1, it.calls, it.fired, QueryLoop(kind, retries, attempt - 1, sd, rounds[i + 1..])))
      && (it.returned.None? && !ShouldRetry(retries, attempt - 1, sd) ==>
            r == QueryRun(if it.last.Some? then Raised(it.last.value) else NothingFound, 1, it.calls, it.fired))
  {
    assert rounds[i..][0] == rounds[i] && rounds[i..][1..] == rounds[i + 1..];
  }

  /** What one more iteration does to a partially run loop: the loop invariant of
      RunQuery carried across an iteration. */
  lemma QueryAdvance<T>(kind: QueryKind, retries: int, attempt: int, sd: bool, rounds: seq<QueryRound<T>>,
                        i: nat, calls: nat, fired: seq<Failure>, spec: QueryRun<T>)
    requires i < |rounds| && QueryEnds(retries, attempt, sd, rounds[i..])
    requires spec == Then(i, calls, fired, QueryLoop(kind, retries, attempt, sd, rounds[i..]))
    ensures var it := Iterate(kind, rounds[i]);
      var sd' := sd || rounds[i].shutdownRequested;
      && (it.returned.Some? ==>
            spec == QueryRun(Found(it.returned.value), i + 1, calls + it.calls, fired + it.fired))
      && (it.returned.None? && ShouldRetry(retries, attempt - 1, sd') ==>
            QueryEnds(retries, attempt - 1, sd', rounds[i + 1..]) &&
            spec == Then(i + 1, calls + it.calls, fired + it.fired, QueryLoop(kind, retries, attempt - 1, sd', rounds[i + 1..])))
      && (it.returned.None? && !ShouldRetry(retries, attempt - 1, sd') ==>
            spec == QueryRun(if it.last.Some? then Raised(it.last.value) else NothingFound, i + 1, calls + it.calls, fired + it.fired))
  {
    QueryLoopStep(kind, retries, attempt, sd, rounds, i);
    var it := Iterate(kind, rounds[i]);
    var sd' := sd || rounds[i].shutdownRequested;
    if it.returned.None? && ShouldRetry(retries, attempt - 1, sd') {
      var tail := QueryLoop(kind, retries, attempt - 1, sd', rounds[i + 1..]);
      assert fired + (it.fired + tail.fired) == (fired + it.fired) + tail.fired;
    }
  }

  /** The body of one iteration: `last` is reset, and the call is made through its
      wrapper only when the connection has a login. */
  method Attempt<T>(kind: QueryKind, rd: QueryRound<T>) returns (it: Iteration<T>)
    ensures it == Iterate(kind, rd)
  {
    var last: Option<Exception> := None;
    if rd.login.Some? {
      var g := Guard(kind, rd.reply, rd.callbackThrows);
      match g.result
      case Success(v) =>
        return Iteration(v, None, 1, g.fired);
      case Failure(e) =>
        last := Some(e);
        return Iteration(None, last, 1, g.fired);
    }
    return Iteration(None, last, 0, []);
  }

  /** The query loop as the source runs it: a do-while over `attempt` and `last`. */
  method RunQuery<T>(kind: QueryKind, retries: int, shutdown: bool, rounds: seq<QueryRound<T>>) returns (r: QueryRun<T>)
    requires QueryEnds(retries, retries, shutdown, rounds)
    ensures r == QueryLoop(kind, retries, retries, shutdown, rounds)
  {
    ghost var spec := QueryLoop(kind, retries, retries, shutdown, rounds);
    var attempt := retries;
    var sd := shutdown;
    var last: Option<Exception> := None;
    var i: nat, calls: nat, fired: seq<Failure> := 0, 0, [];
    var again := true;
    assert rounds[0..] == rounds;
    assert spec == Then(0, 0, [], spec);
    while again
      invariant 0 <= i <= |rounds|
      invariant again ==> QueryEnds(retries, attempt, sd, rounds[i..])
      invariant again ==> spec == Then(i, calls, fired, QueryLoop(kind, retries, attempt, sd, rounds[i..]))
      invariant !again ==> spec == QueryRun(if last.Some? then Raised(last.value) else NothingFound, i, calls, fired)
      decreases |rounds| - i, again
    {
      QueryAdvance(kind, retries, attempt, sd, rounds, i, calls, fired, spec);
      var it := Attempt(kind, rounds[i]);
      last := it.last;
      calls, fired := calls + it.calls, fired + it.fired;
      if it.returned.Some? {
        return QueryRun(Found(it.returned.value), i + 1, calls, fired);
      }
      sd := sd || rounds[i].shutdownRequested;
      attempt := attempt - 1;
      i := i + 1;
      again := ShouldRetry(retries, attempt, sd);
    }
    r := QueryRun(if last.Some? then Raised(last.value) else NothingFound, i, calls, fired);
  }

  // Properties of the query loop. `attempt` is the number of further attempts
  // the counter allows; a call starts the loop with attempt == retries.

  /** With retries >= 0 the loop makes at most attempt + 1 iterations, whatever
      the environment does. */
  lemma {:induction false} QueryAttemptsBounded<T>(kind: QueryKind, retries: int, attempt: int, shutdown: bool, rounds: seq<QueryRound<T>>)
    requires QueryEnds(retries, attempt, shutdown, rounds)
    requires 0 <= retries && 0 <= attempt
    ensures QueryLoop(kind, retries, attempt, shutdown, rounds).iterations <= attempt + 1
    decreases |rounds|
  {
    var sd := shutdown || rounds[0].shutdownRequested;
    if !Delivers(rounds[0]) && ShouldRetry(retries, attempt - 1, sd) {
      QueryEndsTail(retries, attempt, shutdown, rounds);
      QueryAttemptsBounded(kind, retries, attempt - 1, sd, rounds[1..]);
    }
  }

  /** With retries >= 0, when no iteration returns a result and no shutdown is
      observed, the loop makes exactly attempt + 1 iterations. */
  lemma {:induction false} QueryExhausts<T>(kind: QueryKind, retries: int, attempt: int, shutdown: bool, rounds: seq<QueryRound<T>>)
    requires 0 <= retries && 0 <= attempt < |rounds| && !shutdown
    requires forall j :: 0 <= j <= attempt ==> !Delivers(rounds[j]) && !rounds[j].shutdownRequested
    ensures QueryEnds(retries, attempt, shutdown, rounds)
    ensures QueryLoop(kind, retries, attempt, shutdown, rounds).iterations == attempt + 1
    decreases |rounds|
  {
    assert rounds[attempt].shutdownRequested || attempt >= attempt;
    if attempt > 0 {
      assert ShouldRetry(retries, attempt - 1, false);
      QueryExhausts(kind, retries, attempt - 1, false, rounds[1..]);
    }
  }

  /** With a negative retries the loop goes on until a result is returned or a
      shutdown is observed: it passes every round before the first of those. */
  lemma {:induction false} QueryUnboundedContinues<T>(kind: QueryKind, retries: int, attempt: int, shutdown: bool, rounds: seq<QueryRound<T>>, k: nat)
    requires QueryEnds(retries, attempt, shutdown, rounds)
    requires retries < 0 && !shutdown && k < |rounds|
    requires forall j :: 0 <= j < k ==> !Delivers(rounds[j]) && !rounds[j].shutdownRequested
    ensures QueryLoop(kind, retries, attempt, shutdown, rounds).iterations > k
    decreases |rounds|
  {
    if k > 0 {
      QueryEndsTail(retries, attempt, shutdown, rounds);
      QueryUnboundedContinues(kind, retries, attempt - 1, false, rounds[1..], k - 1);
    }
  }

  /** Once shutdown has been requested, the loop ends with the iteration that
      observes it, whatever retries says. */
  lemma {:induction false} QueryStopsAtShutdown<T>(kind: QueryKind, retries: int, attempt: int, shutdown: bool, rounds: seq<QueryRound<T>>, k: nat)
    requires QueryEnds(retries, attempt, shutdown, rounds)
    requires k < |rounds| && (shutdown || rounds[k].shutdownRequested)
    ensures QueryLoop(kind, retries, attempt, shutdown, rounds).iterations <= k + 1
    decreases |rounds|
  {
    var sd := shutdown || rounds[0].shutdownRequested;
    if !Delivers(rounds[0]) && ShouldRetry(retries, attempt - 1, sd) {
      assert k > 0;
      QueryEndsTail(retries, attempt, shutdown, rounds);
      QueryStopsAtShutdown(kind, retries, attempt - 1, sd, rounds[1..], k - 1);
    }
  }

  /** The outcome is decided by the final iteration alone: every earlier
      iteration returned nothing, a result is returned as soon as it arrives, and
      the exception rethrown is the one raised in the final iteration (`last` is
      cleared at the top of every iteration). */
  lemma {:induction false} QueryOutcomeIsFinalIteration<T>(kind: QueryKind, retries: int, attempt: int, shutdown: bool, rounds: seq<QueryRound<T>>)
    requires QueryEnds(retries, attempt, shutdown, rounds)
    ensures var r := QueryLoop(kind, retries, attempt, shutdown, rounds);
      var final := rounds[r.iterations - 1];
      && (forall j :: 0 <= j < r.iterations - 1 ==> !Delivers(rounds[j]))
      && (r.outcome.Found? <==> Delivers(final))
      && (r.outcome.Found? ==> r.outcome.value == final.reply.result.value)
      && (r.outcome.Raised? <==> final.login.Some? && final.reply.Raise?)
      && (r.outcome.Raised? ==> r.outcome.cause == final.reply.cause)
    decreases |rounds|
  {
    var sd := shutdown || rounds[0].shutdownRequested;
    if !Delivers(rounds[0]) && ShouldRetry(retries, attempt - 1, sd) {
      QueryEndsTail(retries, attempt, shutdown, rounds);
      QueryOutcomeIsFinalIteration(kind, retries, attempt - 1, sd, rounds[1..]);
      var tail := QueryLoop(kind, retries, attempt - 1, sd, rounds[1..]);
      assert rounds[1..][tail.iterations - 1] == rounds[tail.iterations];
      forall j | 0 <= j < tail.iterations
        ensures !Delivers(rounds[j])
      {
        if j > 0 { assert rounds[j] == rounds[1..][j - 1]; }
      }
    }
  }

  /** The number of rounds in which the connection has a login. */
  function LoggedInRounds<T>(rounds: seq<QueryRound<T>>): nat {
    if rounds == [] then 0
    else (if rounds[0].login.Some? then 1 else 0) + LoggedInRounds(rounds[1..])
  }

  /** One callback notice per round whose call fails, in order. */
  function FailureNotices<T>(kind: QueryKind, rounds: seq<QueryRound<T>>): seq<Failure> {
    if rounds == [] then []
    else
      (if rounds[0].login.Some? && rounds[0].reply.Raise? then [Notice(kind, rounds[0].reply.cause)] else [])
      + FailureNotices(kind, rounds[1..])
  }

  /** The loop calls the underlying operation once per iteration with a login and
      never otherwise, and invokes the operation's callback exactly once per
      failed call. */
  lemma {:induction false} QueryCallbacks<T>(kind: QueryKind, retries: int, attempt: int, shutdown: bool, rounds: seq<QueryRound<T>>)
    requires QueryEnds(retries, attempt, shutdown, rounds)
    ensures var r := QueryLoop(kind, retries, attempt, shutdown, rounds);
      r.calls == LoggedInRounds(rounds[..r.iterations]) &&
      r.fired == FailureNotices(kind, rounds[..r.iterations])
    decreases |rounds|
  {
    var r := QueryLoop(kind, retries, attempt, shutdown, rounds);
    var sd := shutdown || rounds[0].shutdownRequested;
    assert rounds[..r.iterations][0] == rounds[0];
    if !Delivers(rounds[0]) && ShouldRetry(retries, attempt - 1, sd) {
      QueryEndsTail(retries, attempt, shutdown, rounds);
      QueryCallbacks(kind, retries, attempt - 1, sd, rounds[1..]);
      var tail := QueryLoop(kind, retries, attempt - 1, sd, rounds[1..]);
      assert rounds[..r.iterations][1..] == rounds[1..][..tail.iterations];
    } else {
      assert rounds[..r.iterations][1..] == [];
    }
  }

  /** When the connection never has a login, no call is made, no callback fires
      and the loop ends with nothing to rethrow. */
  lemma {:induction false} QueryWithoutLogin<T>(kind: QueryKind, retries: int, attempt: int, shutdown: bool, rounds: seq<QueryRound<T>>)
    requires QueryEnds(retries, attempt, shutdown, rounds)
    requires forall j :: 0 <= j < |rounds| ==> rounds[j].login.None?
    ensures QueryLoop(kind, retries, attempt, shutdown, rounds) == QueryRun(NothingFound, QueryLoop(kind, retries, attempt, shutdown, rounds).iterations, 0, [])
    decreases |rounds|
  {
    var sd := shutdown || rounds[0].shutdownRequested;
    if ShouldRetry(retries, attempt - 1, sd) {
      QueryEndsTail(retries, attempt, shutdown, rounds);
      QueryWithoutLogin(kind, retries, attempt - 1, sd, rounds[1..]);
    }
  }

  /** The value findServices and getAllServices return or the exception they throw:
      an empty array when no exception is left to rethrow. */
  function ServicesResult(o: QueryOutcome<seq<OfferDesc>>): Result<seq<OfferDesc>, Exception> {
    match o
    case Found(v) => Success(v)
    case Raised(e) => Failure(e)
    case NothingFound => Success([])
  }

  /** findServices with retries = -1 after shutdown, while there is no login,
      returns an empty array after a single iteration. */
  lemma UnboundedFindAfterShutdown(rounds: seq<QueryRound<seq<OfferDesc>>>)
    requires |rounds| > 0 && rounds[0].login.None?
    ensures QueryEnds(-1, -1, true, rounds)
    ensures var r := QueryLoop(FindKind, -1, -1, true, rounds);
      r.iterations == 1 && r.calls == 0 && ServicesResult(r.outcome) == Success([])
  {
  }

  /** findServices(properties, retries); `rounds` holds the registry's answers to
      the search for `properties`. */
  method FindServices(retries: int, shutdown: bool, rounds: seq<QueryRound<seq<OfferDesc>>>)
    returns (r: Result<seq<OfferDesc>, Exception>, fired: seq<Failure>)
    requires QueryEnds(retries, retries, shutdown, rounds)
    ensures var run := QueryLoop(FindKind, retries, retries, shutdown, rounds);
      r == ServicesResult(run.outcome) && fired == run.fired
  {
    var run := RunQuery(FindKind, retries, shutdown, rounds);
    r, fired := ServicesResult(run.outcome), run.fired;
  }

  /** getAllServices(retries). */
  method GetAllServices(retries: int, shutdown: bool, rounds: seq<QueryRound<seq<OfferDesc>>>)
    returns (r: Result<seq<OfferDesc>, Exception>, fired: seq<Failure>)
    requires QueryEnds(retries, retries, shutdown, rounds)
    ensures var run := QueryLoop(FindKind, retries, retries, shutdown, rounds);
      r == ServicesResult(run.outcome) && fired == run.fired
  {
    var run := RunQuery(FindKind, retries, shutdown, rounds);
    r, fired := ServicesResult(run.outcome), run.fired;
  }

  /** startSharedAuth(retries): null when no exception is left to rethrow. */
  method StartSharedAuth(retries: int, shutdown: bool, rounds: seq<QueryRound<SharedAuthSecret>>)
    returns (r: Result<Option<SharedAuthSecret>, Exception>, fired: seq<Failure>)
    requires QueryEnds(retries, retries, shutdown, rounds)
    ensures var run := QueryLoop(SharedAuthKind, retries, retries, shutdown, rounds);
      fired == run.fired &&
      r == match run.outcome
           case Found(v) => Success(Some(v))
           case Raised(e) => Failure(e)
           case NothingFound => Success(None)
  {
    var run := RunQuery(SharedAuthKind, retries, shutdown, rounds);
    fired := run.fired;
    match run.outcome
    case Found(v) => r := Success(Some(v));
    case Raised(e) => r := Failure(e);
    case NothingFound => r := Success(None);
  }
}
