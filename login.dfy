/** The login maintainer: one authentication attempt (Assistant.login()) and the
    loop that repeats it until it succeeds or shutdown is set (DoLogin.run).

    The environment is a script of rounds, one per attempt: what the application's
    onLoginAuthentication() gives, what each connection login operation does,
    whether the failure callback throws, and whether shutdown() was called while the
    attempt ran (observed by the loop condition that follows it). Sleeps are no-ops. */
module Login {
  import opened Wrappers
  import opened Bus
  import opened Auth

  /** A call into the connection's login operations, with the arguments taken
      from the AuthArgs fields (None for a null field). */
  datatype LoginCall =
    | PasswordLogin(entity: Option<string>, password: Option<Bytes>)
    | CertificateLogin(entity: Option<string>, privkey: Option<PrivateKey>)
    | SharedAuthLogin(secret: Option<SharedAuthSecret>)

  /** What each of the connection's login operations does in one attempt:
      None when it returns normally, Some(e) when it throws e. */
  datatype AuthReplies = AuthReplies(
    byPassword: Option<Exception>,
    byCertificate: Option<Exception>,
    bySharing: Option<Exception>)

  function ReplyTo(replies: AuthReplies, call: LoginCall): Option<Exception> {
    match call
    case PasswordLogin(_, _) => replies.byPassword
    case CertificateLogin(_, _) => replies.byCertificate
    case SharedAuthLogin(_) => replies.bySharing
  }

  /** What onLoginAuthentication() does: returns credentials, returns null, or
      throws (for instance the IllegalArgumentException of an AuthArgs
      constructor given a null argument). */
  datatype Provided = Supplied(args: AuthArgs) | NullArgs | ProviderThrew(cause: Exception)

  /** The provider that returns what an AuthArgs constructor call yields. */
  function Provide(made: Result<AuthArgs, Exception>): Provided {
    match made
    case Success(a) => Supplied(a)
    case Failure(e) => ProviderThrew(e)
  }

  /** The calls the `switch (args.mode)` makes. Its cases have no `break`, so
      control falls through from the mode's own case to the end of the switch. */
  function SwitchCalls(a: AuthArgs): (calls: seq<LoginCall>)
    ensures |calls| == match a.mode case AuthByPassword => 3 case AuthByCertificate => 2 case AuthBySharing => 1
    ensures calls[0] == match a.mode
      case AuthByPassword => PasswordLogin(a.entity, a.password)
      case AuthByCertificate => CertificateLogin(a.entity, a.privkey)
      case AuthBySharing => SharedAuthLogin(a.secret)
    ensures calls[|calls| - 1] == SharedAuthLogin(a.secret)
    ensures a.mode != AuthBySharing ==> calls[|calls| - 2] == CertificateLogin(a.entity, a.privkey)
  {
    var sharing := [SharedAuthLogin(a.secret)];
    var certificate := [CertificateLogin(a.entity, a.privkey)] + sharing;
    match a.mode
    case AuthByPassword => [PasswordLogin(a.entity, a.password)] + certificate
    case AuthByCertificate => certificate
    case AuthBySharing => sharing
  }

  /** The calls made, in order, until one throws; and the exception, if any. */
  datatype Performed = Performed(made: seq<LoginCall>, raised: Option<Exception>)

  function Perform(calls: seq<LoginCall>, replies: AuthReplies): (p: Performed)
    ensures |p.made| <= |calls| && p.made == calls[..|p.made|]
    ensures forall j :: 0 <= j < |p.made| - (if p.raised.Some? then 1 else 0) ==> ReplyTo(replies, p.made[j]).None?
    ensures p.raised.None? ==> p.made == calls
    ensures p.raised.Some? ==> |p.made| > 0 && p.raised == ReplyTo(replies, p.made[|p.made| - 1])
  {
    if calls == [] then Performed([], None)
    else match ReplyTo(replies, calls[0])
      case Some(e) => Performed([calls[0]], Some(e))
      case None =>
        var rest := Perform(calls[1..], replies);
        assert calls[1..][..|rest.made|] == calls[1..|rest.made| + 1];
        Performed([calls[0]] + rest.made, rest.raised)
  }

  /** One login() call: whether it failed, the calls it made and the callbacks it
      invoked. */
  datatype Attempt = Attempt(failed: bool, made: seq<LoginCall>, fired: seq<Failure>)

  /** The exception login() hands to onLoginFailure when it fails; None when the
      attempt succeeds (an AlreadyLoggedIn counts as success). */
  function LoginError(provided: Provided, replies: AuthReplies): Option<Exception> {
    match provided
    case NullArgs => Some(NullPointer)
    case ProviderThrew(e) => if e == AlreadyLoggedIn then None else Some(e)
    case Supplied(args) =>
      var p := Perform(SwitchCalls(args), replies);
      if p.raised == Some(AlreadyLoggedIn) then None else p.raised
  }

  /** Assistant.login(). An exception thrown by onLoginFailure is logged and
      dropped, so `callbackThrows` changes nothing. */
  function LoginOnce(provided: Provided, replies: AuthReplies, callbackThrows: bool): (a: Attempt)
    ensures a.failed <==> LoginError(provided, replies).Some?
    ensures a.failed ==> a.fired == [LoginFailure(LoginError(provided, replies).value)]
    ensures !a.failed ==> a.fired == []
    ensures !a.failed <==>
      (provided.ProviderThrew? && provided.cause == AlreadyLoggedIn) ||
      (provided.Supplied? &&
        forall c :: c in a.made ==> ReplyTo(replies, c).None? || ReplyTo(replies, c) == Some(AlreadyLoggedIn))
    ensures provided.Supplied? ==> a.made == Perform(SwitchCalls(provided.args), replies).made
    ensures !provided.Supplied? ==> a.made == []
  {
    match provided
    case Supplied(args) =>
      var p := Perform(SwitchCalls(args), replies);
      var err := LoginError(provided, replies);
      if err.Some? then
        assert ReplyTo(replies, p.made[|p.made| - 1]) == err;
        Attempt(true, p.made, [LoginFailure(err.value)])
      else
        assert forall c :: c in p.made ==> ReplyTo(replies, c).None? || ReplyTo(replies, c) == Some(AlreadyLoggedIn) by {
          forall c | c in p.made
            ensures ReplyTo(replies, c).None? || ReplyTo(replies, c) == Some(AlreadyLoggedIn)
          {
            var j :| 0 <= j < |p.made| && p.made[j] == c;
          }
        }
        Attempt(false, p.made, [])
    case _ =>
      var err := LoginError(provided, replies);
      if err.Some? then Attempt(true, [], [LoginFailure(err.value)]) else Attempt(false, [], [])
  }

  /** A valid password-mode AuthArgs makes all three calls when none throws: the
      certificate and shared-auth calls follow the password call, with the null
      private key and secret of a password-mode object. */
  lemma PasswordModeFallsThrough(a: AuthArgs, replies: AuthReplies, callbackThrows: bool)
    requires a.Valid() && a.mode == AuthByPassword
    requires replies == AuthReplies(None, None, None)
    ensures LoginOnce(Supplied(a), replies, callbackThrows) ==
      Attempt(false, [PasswordLogin(a.entity, a.password), CertificateLogin(a.entity, None), SharedAuthLogin(None)], [])
  {
  }

  /** In password mode a successful password call does not end the attempt: an
      exception other than AlreadyLoggedIn from the certificate call that follows
      it makes login() fail with that exception. */
  lemma PasswordModeFailsOnCertificateCall(a: AuthArgs, e: Exception, callbackThrows: bool)
    requires a.Valid() && a.mode == AuthByPassword && e != AlreadyLoggedIn
    ensures var r := LoginOnce(Supplied(a), AuthReplies(None, Some(e), None), callbackThrows);
      r.failed && r.fired == [LoginFailure(e)] &&
      r.made == [PasswordLogin(a.entity, a.password), CertificateLogin(a.entity, None)]
  {
  }

  /** A provider that builds shared-auth credentials from a null secret makes the
      attempt fail with the constructor's IllegalArgumentException, reported to
      onLoginFailure, without calling the connection. */
  lemma NullSecretFailsAttempt(replies: AuthReplies, callbackThrows: bool)
    ensures LoginOnce(Provide(WithSecret(None)), replies, callbackThrows) ==
      Attempt(true, [], [LoginFailure(IllegalArgument)])
  {
  }

  /** What the environment does during one iteration of DoLogin's loop. */
  datatype LoginRound = LoginRound(
    provided: Provided,
    replies: AuthReplies,
    callbackThrows: bool,
    shutdownRequested: bool)

  function AttemptOf(rd: LoginRound): Attempt {
    LoginOnce(rd.provided, rd.replies, rd.callbackThrows)
  }

  /** The script covers the whole run: shutdown is already set, or some round
      succeeds or requests shutdown. */
  predicate LoginEnds(shutdown: bool, rounds: seq<LoginRound>) {
    shutdown ||
    exists k :: 0 <= k < |rounds| && (rounds[k].shutdownRequested || !AttemptOf(rounds[k]).failed)
  }

  lemma LoginEndsTail(rounds: seq<LoginRound>)
    requires LoginEnds(false, rounds) && |rounds| > 0
    requires AttemptOf(rounds[0]).failed
    ensures LoginEnds(rounds[0].shutdownRequested, rounds[1..])
  {
    if !rounds[0].shutdownRequested {
      var k :| 0 <= k < |rounds| && (rounds[k].shutdownRequested || !AttemptOf(rounds[k]).failed);
      assert rounds[1..][k - 1] == rounds[k];
    }
  }

  /** A run of DoLogin: attempts made, connection calls made, callbacks invoked,
      whether it ended with `retry` false (`done`), and the shutdown flag. */
  datatype LoginRun = LoginRun(attempts: nat, made: seq<LoginCall>, fired: seq<Failure>, done: bool, shutdown: bool)

  function JoinRun(attempts: nat, made: seq<LoginCall>, fired: seq<Failure>, r: LoginRun): LoginRun {
    LoginRun(attempts + r.attempts, made + r.made, fired + r.fired, r.done, r.shutdown)
  }

  /** `while (retry && !shutdown) { retry = login(); }`, from a point where
      `retry` holds and the flag reads `shutdown`. The loop ends only once an
      attempt succeeds or shutdown is observed. */
  function LoginLoop(shutdown: bool, rounds: seq<LoginRound>): (r: LoginRun)
    requires LoginEnds(shutdown, rounds)
    ensures r.attempts <= |rounds|
    ensures r.done || r.shutdown
    decreases |rounds|
  {
    if shutdown then LoginRun(0, [], [], false, true)
    else
      var a := AttemptOf(rounds[0]);
      var sd := rounds[0].shutdownRequested;
      if !a.failed then LoginRun(1, a.made, a.fired, true, sd)
      else
        LoginEndsTail(rounds);
        JoinRun(1, a.made, a.fired, LoginLoop(sd, rounds[1..]))
  }

  /** DoLogin.run: no attempt at all when the connection already has a login. */
  function DoLoginSpec(current: Option<LoginInfo>, shutdown: bool, rounds: seq<LoginRound>): (r: LoginRun)
    requires current.Some? || LoginEnds(shutdown, rounds)
    ensures current.Some? ==> r.attempts == 0 && r.made == [] && r.fired == [] && r.done
  {
    if current.Some? then LoginRun(0, [], [], true, shutdown) else LoginLoop(shutdown, rounds)
  }

  /** One more iteration of DoLogin's loop, as the loop invariant sees it. */
  lemma LoginAdvance(sd: bool, rounds: seq<LoginRound>, i: nat, made: seq<LoginCall>, fired: seq<Failure>, spec: LoginRun)
    requires i <= |rounds| && !sd
    requires LoginEnds(sd, rounds[i..])
    requires spec == JoinRun(i, made, fired, LoginLoop(sd, rounds[i..]))
    ensures i < |rounds|
    ensures var a := AttemptOf(rounds[i]);
      var sd' := rounds[i].shutdownRequested;
      && (!a.failed ==> spec == LoginRun(i + 1, made + a.made, fired + a.fired, true, sd'))
      && (a.failed ==>
            LoginEnds(sd', rounds[i + 1..]) &&
            spec == JoinRun(i + 1, made + a.made, fired + a.fired, LoginLoop(sd', rounds[i + 1..])))
  {
    assert rounds[i..][0] == rounds[i] && rounds[i..][1..] == rounds[i + 1..];
    var a := AttemptOf(rounds[i]);
    if a.failed {
      var tail := LoginLoop(rounds[i].shutdownRequested, rounds[i + 1..]);
      assert made + (a.made + tail.made) == (made + a.made) + tail.made;
      assert fired + (a.fired + tail.fired) == (fired + a.fired) + tail.fired;
    }
  }

  /** DoLogin.run as the source runs it: a loop on `retry` and the shutdown flag. */
  method DoLogin(current: Option<LoginInfo>, shutdown: bool, rounds: seq<LoginRound>) returns (r: LoginRun)
    requires current.Some? || LoginEnds(shutdown, rounds)
    ensures r == DoLoginSpec(current, shutdown, rounds)
  {
    ghost var spec := DoLoginSpec(current, shutdown, rounds);
    var retry := true;
    if current.Some? {
      retry := false;
    }
    var sd := shutdown;
    var i: nat, made: seq<LoginCall>, fired: seq<Failure> := 0, [], [];
    assert rounds[0..] == rounds;
    while retry && !sd
      invariant i <= |rounds|
      invariant retry ==> LoginEnds(sd, rounds[i..]) && spec == JoinRun(i, made, fired, LoginLoop(sd, rounds[i..]))
      invariant !retry ==> spec == LoginRun(i, made, fired, true, sd)
      decreases |rounds| - i
    {
      LoginAdvance(sd, rounds, i, made, fired, spec);
      var a := LoginOnce(rounds[i].provided, rounds[i].replies, rounds[i].callbackThrows);
      retry := a.failed;
      made, fired := made + a.made, fired + a.fired;
      sd := sd || rounds[i].shutdownRequested;
      i := i + 1;
    }
    r := LoginRun(i, made, fired, !retry, sd);
  }

  /** The notices the attempts of `rounds` send, attempt by attempt, in order. */
  function LoginNotices(rounds: seq<LoginRound>): seq<Failure> {
    if |rounds| == 0 then [] else AttemptOf(rounds[0]).fired + LoginNotices(rounds[1..])
  }

  /** The callbacks of a run are exactly the notices of the attempts it made, in
      order: each failed attempt invokes onLoginFailure once with its own
      exception, and the successful attempt that ends the loop invokes nothing. */
  lemma {:induction false} LoginLoopNotifiesFailedAttempts(shutdown: bool, rounds: seq<LoginRound>)
    requires LoginEnds(shutdown, rounds)
    ensures var r := LoginLoop(shutdown, rounds);
      && r.fired == LoginNotices(rounds[..r.attempts])
      && |r.fired| == r.attempts - (if r.done then 1 else 0)
      && forall j :: 0 <= j < |r.fired| ==> r.fired[j].LoginFailure?
    decreases |rounds|
  {
    var r := LoginLoop(shutdown, rounds);
    if !shutdown {
      var a := AttemptOf(rounds[0]);
      if a.failed {
        LoginEndsTail(rounds);
        var sd := rounds[0].shutdownRequested;
        LoginLoopNotifiesFailedAttempts(sd, rounds[1..]);
        var t := LoginLoop(sd, rounds[1..]);
        assert rounds[..r.attempts][0] == rounds[0];
        assert rounds[..r.attempts][1..] == rounds[1..][..t.attempts];
      } else {
        assert rounds[..r.attempts][1..] == [];
      }
    }
  }

  /** A shutdown requested during attempt k (by another thread, or by the
      failure callback itself) prevents every later attempt. */
  lemma {:induction false} LoginStopsAfterShutdown(shutdown: bool, rounds: seq<LoginRound>, k: nat)
    requires LoginEnds(shutdown, rounds)
    requires k < |rounds| && rounds[k].shutdownRequested
    ensures LoginLoop(shutdown, rounds).attempts <= k + 1
    decreases |rounds|
  {
    if !shutdown && AttemptOf(rounds[0]).failed && k > 0 {
      LoginEndsTail(rounds);
      LoginStopsAfterShutdown(rounds[0].shutdownRequested, rounds[1..], k - 1);
    }
  }

  /** Without a shutdown, failed attempts (null credentials, a throwing provider,
      bus errors) never end the loop: it passes every round before the first that
      succeeds or requests shutdown. */
  lemma {:induction false} LoginRetriesUntilDone(rounds: seq<LoginRound>, k: nat)
    requires LoginEnds(false, rounds)
    requires k < |rounds|
    requires forall j :: 0 <= j < k ==> AttemptOf(rounds[j]).failed && !rounds[j].shutdownRequested
    ensures LoginLoop(false, rounds).attempts > k
    decreases |rounds|
  {
    if k > 0 {
      LoginEndsTail(rounds);
      LoginRetriesUntilDone(rounds[1..], k - 1);
    }
  }

  /** The shared-auth credentials built from a null secret: the attempt fails with
      an IllegalArgumentException delivered to onLoginFailure; a callback that
      calls shutdown() then ends the loop after that single attempt. */
  lemma NullSecretThenShutdownInCallback(replies: AuthReplies, callbackThrows: bool, later: seq<LoginRound>)
    ensures var rounds := [LoginRound(Provide(WithSecret(None)), replies, callbackThrows, true)] + later;
      LoginEnds(false, rounds) &&
      LoginLoop(false, rounds) == LoginRun(1, [], [LoginFailure(IllegalArgument)], false, true)
  {
    var rounds := [LoginRound(Provide(WithSecret(None)), replies, callbackThrows, true)] + later;
    assert rounds[0].shutdownRequested;
    NullSecretFailsAttempt(replies, callbackThrows);
  }
}
