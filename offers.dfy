/** A service offer the assistant keeps registered (the inner class Offer) and the
    maintenance loop of its DoRegister task.

    The environment of the maintenance loop is a script of rounds, one per
    iteration of the inner retry loop: the login the connection reports, what the
    registry answers if it is called, whether the failure callback throws, whether
    reset() was called on the offer while the iteration ran (by the invalid-login
    callback) and whether shutdown() was called while it ran. Sleeps are no-ops.
    A run is observed over a finite script: when the script ends while the task
    still retries, the run is reported `Pending`. */
module Offers {
  import opened Wrappers
  import opened Bus

  /** The login recorded in an offer descriptor: the value of its first
      "openbus.offer.login" property, or None when there is no descriptor yet. */
  function LoginIdOf(desc: Option<OfferDesc>): Option<string> {
    if desc.None? then None else FirstValue(desc.value.properties, OfferLoginProperty)
  }

  /** LoginIdOf is None without a descriptor or without a login property, and
      otherwise the value of the first login property of the descriptor. */
  lemma LoginIdOfFindsLoginProperty(desc: Option<OfferDesc>)
    ensures desc.None? ==> LoginIdOf(desc).None?
    ensures desc.Some? ==>
      (LoginIdOf(desc).None? <==>
         forall i :: 0 <= i < |desc.value.properties| ==> desc.value.properties[i].name != OfferLoginProperty)
    ensures LoginIdOf(desc).Some? ==>
      exists i :: 0 <= i < |desc.value.properties| &&
        desc.value.properties[i] == Property(OfferLoginProperty, LoginIdOf(desc).value) &&
        forall j :: 0 <= j < i ==> desc.value.properties[j].name != OfferLoginProperty
  {
    if desc.Some? {
      FirstValueFinds(desc.value.properties, OfferLoginProperty);
    }
  }

  /** What offerRegistry.registerService(component, properties) does: return the
      new offer (whose descriptor the assistant keeps) or throw. */
  datatype RegisterReply = Registered(desc: OfferDesc) | Refused(cause: Exception)

  /** What registryOffer() does with a reply: whether it failed, the descriptor
      the offer holds afterwards, and the callback invocations it made. A
      throwing callback is logged and dropped. */
  datatype Registration = Registration(failed: bool, desc: Option<OfferDesc>, fired: seq<Failure>)

  function Register(component: ComponentRef, properties: seq<Property>, desc: Option<OfferDesc>,
                    reply: RegisterReply, callbackThrows: bool): (g: Registration)
    ensures g.failed <==> reply.Refused?
    ensures g.failed ==> g.desc == desc && g.fired == [RegisterFailure(component, properties, reply.cause)]
    ensures !g.failed ==> g.desc == Some(reply.desc) && g.fired == []
  {
    match reply
    case Registered(d) => Registration(false, Some(d), [])
    case Refused(e) => Registration(true, desc, [RegisterFailure(component, properties, e)])
  }

  /** The offer: its component, a copy of its properties array's contents, the descriptor
      of its latest registration, and the event flag that asks DoRegister to
      check the registration again. */
  class Offer {
    const component: ComponentRef
    const properties: seq<Property>
    var offer: Option<OfferDesc>
    var event: bool

    /** A new offer starts unregistered with its event raised, so that its
        DoRegister task registers it at once. */
    constructor (component: ComponentRef, properties: array<Property>)
      ensures this.component == component && this.properties == properties[..]
      ensures offer.None? && event
    {
      this.component := component;
      this.properties := properties[..];
      offer := None;
      event := true;
    }

    /** loginId(): scans the descriptor's properties for the login property. */
    method LoginId() returns (id: Option<string>)
      ensures id == LoginIdOf(offer)
    {
      id := None;
      if offer.Some? {
        var props := offer.value.properties;
        var i := 0;
        while i < |props|
          invariant 0 <= i <= |props|
          invariant FirstValue(props, OfferLoginProperty) == FirstValue(props[i..], OfferLoginProperty)
        {
          assert props[i..][1..] == props[i + 1..];
          if props[i].name == OfferLoginProperty {
            return Some(props[i].value);
          }
          i := i + 1;
        }
      }
    }

    /** registryOffer(): registers the offer; on success keeps the new
        descriptor, on failure keeps the old one and notifies onRegisterFailure.
        Returns whether it failed. */
    method RegistryOffer(reply: RegisterReply, callbackThrows: bool) returns (failed: bool, fired: seq<Failure>)
      modifies this`offer
      ensures Registration(failed, offer, fired) == Register(component, properties, old(offer), reply, callbackThrows)
    {
      failed := true;
      fired := [];
      match reply {
        case Registered(d) =>
          offer := Some(d);
          failed := false;
        case Refused(e) =>
      }
      if failed {
        fired := [RegisterFailure(component, properties, reply.cause)];
      }
    }

    /** reset(): raises the event so that DoRegister checks the registration again. */
    method Reset()
      modifies this`event
      ensures event
    {
      event := true;
    }
  }

  /** One iteration of DoRegister's retry loop, as the environment plays it. */
  datatype RegisterRound = RegisterRound(login: Option<LoginInfo>, reply: RegisterReply, callbackThrows: bool,
                                         resetRequested: bool, shutdownRequested: bool)

  /** How an observed run of DoRegister ends: the task exited on shutdown, it is
      blocked waiting for an event, or the script ended while it was retrying. */
  datatype Status = Stopped | Blocked | Pending

  /** A run of DoRegister: retry iterations, registry calls, callback invocations,
      and the offer's descriptor, event flag and the shutdown flag at the end. */
  datatype RegisterRun = RegisterRun(iterations: nat, calls: nat, fired: seq<Failure>,
                                     desc: Option<OfferDesc>, event: bool, shutdown: bool, status: Status)

  function JoinRegister(iterations: nat, calls: nat, fired: seq<Failure>, r: RegisterRun): RegisterRun {
    RegisterRun(iterations + r.iterations, calls + r.calls, fired + r.fired, r.desc, r.event, r.shutdown, r.status)
  }

  /** Whether an iteration in which the connection reports `login` calls the
      registry: only with a login that differs from the one in the descriptor. */
  predicate Calls(login: Option<LoginInfo>, desc: Option<OfferDesc>) {
    login.Some? && Some(login.value.id) != LoginIdOf(desc)
  }

  /** What one iteration of the retry loop does before the shutdown check:
      whether it calls the registry, whether `retry` stays true, the descriptor
      afterwards and the callback invocations. Without a login it retries; with
      the descriptor's own login it stops without a call; otherwise
      registryOffer() decides. */
  datatype Handled = Handled(called: bool, retry: bool, desc: Option<OfferDesc>, fired: seq<Failure>)

  function Handle(component: ComponentRef, properties: seq<Property>, desc: Option<OfferDesc>,
                  rd: RegisterRound): (h: Handled)
    ensures h.called <==> Calls(rd.login, desc)
    ensures rd.login.None? ==> h == Handled(false, true, desc, [])
    ensures rd.login.Some? && !h.called ==> h == Handled(false, false, desc, [])
    ensures h.called ==>
      var g := Register(component, properties, desc, rd.reply, rd.callbackThrows);
      h == Handled(true, g.failed, g.desc, g.fired)
  {
    if !Calls(rd.login, desc) then Handled(false, rd.login.None?, desc, [])
    else
      var g := Register(component, properties, desc, rd.reply, rd.callbackThrows);
      Handled(true, g.failed, g.desc, g.fired)
  }

  /** DoRegister.run from its outer `while (!shutdown)` check, once the check has
      passed: the wait blocks while no event is raised; otherwise the event is
      cleared and the retry loop starts. */
  function Waiting(component: ComponentRef, properties: seq<Property>, desc: Option<OfferDesc>,
                   event: bool, rounds: seq<RegisterRound>): (r: RegisterRun)
    decreases |rounds|, 1
  {
    if !event then RegisterRun(0, 0, [], desc, false, false, Blocked)
    else Retrying(component, properties, desc, false, rounds)
  }

  /** DoRegister's retry loop `while (retry && !shutdown)` with both checks
      passed. An iteration handles one round; a shutdown requested while it ran
      ends the task, a `retry` left true repeats the loop, and otherwise the
      outer loop resumes. */
  function Retrying(component: ComponentRef, properties: seq<Property>, desc: Option<OfferDesc>,
                    event: bool, rounds: seq<RegisterRound>): (r: RegisterRun)
    decreases |rounds|, 0
  {
    if |rounds| == 0 then RegisterRun(0, 0, [], desc, event, false, Pending)
    else
      var rd := rounds[0];
      var h := Handle(component, properties, desc, rd);
      var event' := event || rd.resetRequested;
      JoinRegister(1, if h.called then 1 else 0, h.fired,
        if rd.shutdownRequested then RegisterRun(0, 0, [], h.desc, event', true, Stopped)
        else if h.retry then Retrying(component, properties, h.desc, event', rounds[1..])
        else Waiting(component, properties, h.desc, event', rounds[1..]))
  }

  /** A whole run of DoRegister.run, from the outer check with the flag reading
      `shutdown`. */
  function DoRegisterSpec(component: ComponentRef, properties: seq<Property>, desc: Option<OfferDesc>,
                          event: bool, shutdown: bool, rounds: seq<RegisterRound>): (r: RegisterRun)
    ensures shutdown ==> r == RegisterRun(0, 0, [], desc, event, true, Stopped)
    ensures !shutdown && !event ==> r == RegisterRun(0, 0, [], desc, false, false, Blocked)
  {
    if shutdown then RegisterRun(0, 0, [], desc, event, true, Stopped)
    else Waiting(component, properties, desc, event, rounds)
  }

  /** One iteration of the retry loop, as the loop invariants see it: the run so
      far is extended by one round and continues at the loop check it reaches. */
  lemma RetryAdvance(component: ComponentRef, properties: seq<Property>, desc: Option<OfferDesc>, event: bool,
                     rounds: seq<RegisterRound>, start: nat, i: nat, calls: nat, fired: seq<Failure>, spec: RegisterRun)
    requires start <= i < |rounds|
    requires spec == JoinRegister(i - start, calls, fired, Retrying(component, properties, desc, event, rounds[i..]))
    ensures var h := Handle(component, properties, desc, rounds[i]);
      var calls' := if h.called then calls + 1 else calls;
      var event' := event || rounds[i].resetRequested;
      && (rounds[i].shutdownRequested ==>
            spec == RegisterRun(i + 1 - start, calls', fired + h.fired, h.desc, event', true, Stopped))
      && (!rounds[i].shutdownRequested && h.retry ==>
            spec == JoinRegister(i + 1 - start, calls', fired + h.fired, Retrying(component, properties, h.desc, event', rounds[i + 1..])))
      && (!rounds[i].shutdownRequested && !h.retry ==>
            spec == JoinRegister(i + 1 - start, calls', fired + h.fired, Waiting(component, properties, h.desc, event', rounds[i + 1..])))
  {
    SliceStep(rounds, i);
    RetryStep(component, properties, desc, event, rounds[i..]);
    var h := Handle(component, properties, desc, rounds[i]);
    var event' := event || rounds[i].resetRequested;
    var tail := if rounds[i].shutdownRequested then RegisterRun(0, 0, [], h.desc, event', true, Stopped)
                else if h.retry then Retrying(component, properties, h.desc, event', rounds[i + 1..])
                else Waiting(component, properties, h.desc, event', rounds[i + 1..]);
    JoinTwice(i - start, calls, fired, 1, if h.called then 1 else 0, h.fired, tail);
  }

  /** The first iteration of the retry loop over a non-empty script. */
  lemma RetryStep(component: ComponentRef, properties: seq<Property>, desc: Option<OfferDesc>, event: bool,
                  rounds: seq<RegisterRound>)
    requires |rounds| > 0
    ensures var h := Handle(component, properties, desc, rounds[0]);
      var event' := event || rounds[0].resetRequested;
      Retrying(component, properties, desc, event, rounds) ==
        JoinRegister(1, if h.called then 1 else 0, h.fired,
          if rounds[0].shutdownRequested then RegisterRun(0, 0, [], h.desc, event', true, Stopped)
          else if h.retry then Retrying(component, properties, h.desc, event', rounds[1..])
          else Waiting(component, properties, h.desc, event', rounds[1..]))
  {
  }

  lemma SliceStep<T>(s: seq<T>, i: nat)
    requires i < |s|
    ensures |s[i..]| > 0 && s[i..][0] == s[i] && s[i..][1..] == s[i + 1..]
  {
  }

  lemma SliceStart<T>(s: seq<T>)
    ensures s[0..] == s
  {
  }

  lemma JoinTwice(i: nat, calls: nat, fired: seq<Failure>, j: nat, more: nat, fired': seq<Failure>, r: RegisterRun)
    ensures JoinRegister(i, calls, fired, JoinRegister(j, more, fired', r)) ==
            JoinRegister(i + j, calls + more, fired + fired', r)
  {
    assert fired + (fired' + r.fired) == (fired + fired') + r.fired;
  }

  /** The run that continues after one round of the retry loop, when the round
      did not request shutdown: the retry loop again, or the outer loop. */
  function Continue(component: ComponentRef, properties: seq<Property>, h: Handled, event: bool,
                    rounds: seq<RegisterRound>): RegisterRun
    decreases |rounds|, 2
  {
    if h.retry then Retrying(component, properties, h.desc, event, rounds)
    else Waiting(component, properties, h.desc, event, rounds)
  }

  /** The shape of a run: at most one iteration per round and one registry call
      per iteration; the run is stopped exactly when it saw the shutdown flag,
      a blocked wait has no event pending, and a run still pending has used the
      whole script. */
  lemma {:induction false} RunShape(component: ComponentRef, properties: seq<Property>,
                                    desc: Option<OfferDesc>, event: bool, rounds: seq<RegisterRound>)
    ensures var r := Retrying(component, properties, desc, event, rounds);
      && r.iterations <= |rounds| && r.calls <= r.iterations
      && (r.status == Stopped <==> r.shutdown)
      && (r.status == Blocked ==> !r.event)
      && (r.status == Pending ==> r.iterations == |rounds|)
    decreases |rounds|
  {
    if |rounds| > 0 {
      var rd := rounds[0];
      var h := Handle(component, properties, desc, rd);
      var event' := event || rd.resetRequested;
      if !rd.shutdownRequested {
        if h.retry {
          RunShape(component, properties, h.desc, event', rounds[1..]);
        } else if event' {
          RunShape(component, properties, h.desc, false, rounds[1..]);
        }
      }
    }
  }

  /** Every notice in `fired` is an onRegisterFailure for this component and
      these properties. */
  predicate OfferFailures(fired: seq<Failure>, component: ComponentRef, properties: seq<Property>) {
    forall j :: 0 <= j < |fired| ==>
      fired[j].RegisterFailure? && fired[j].component == component && fired[j].properties == properties
  }

  lemma OfferFailuresJoin(a: seq<Failure>, b: seq<Failure>, component: ComponentRef, properties: seq<Property>)
    requires OfferFailures(a, component, properties) && OfferFailures(b, component, properties)
    ensures OfferFailures(a + b, component, properties)
  {
    forall j | 0 <= j < |a + b|
      ensures (a + b)[j].RegisterFailure? && (a + b)[j].component == component && (a + b)[j].properties == properties
    {
      if j >= |a| {
        assert (a + b)[j] == b[j - |a|];
      }
    }
  }

  /** Every callback invocation of the retry loop is an onRegisterFailure for
      this offer's component and properties, one per failed registry call. */
  lemma {:induction false} FailuresNotifyTheOffer(component: ComponentRef, properties: seq<Property>,
                                                  desc: Option<OfferDesc>, event: bool, rounds: seq<RegisterRound>)
    ensures var r := Retrying(component, properties, desc, event, rounds);
      |r.fired| <= r.calls && OfferFailures(r.fired, component, properties)
    decreases |rounds|
  {
    if |rounds| > 0 {
      var rd := rounds[0];
      var h := Handle(component, properties, desc, rd);
      var event' := event || rd.resetRequested;
      assert OfferFailures(h.fired, component, properties);
      if !rd.shutdownRequested {
        if h.retry {
          FailuresNotifyTheOffer(component, properties, h.desc, event', rounds[1..]);
        } else if event' {
          FailuresNotifyTheOffer(component, properties, h.desc, false, rounds[1..]);
        }
        OfferFailuresJoin(h.fired, Continue(component, properties, h, event', rounds[1..]).fired, component, properties);
      }
    }
  }

  /** The registry is called only with a login other than the descriptor's: while
      every iteration sees no login, or the login the descriptor already records,
      the run makes no call, notifies nothing and keeps the descriptor. */
  lemma {:induction false} NoCallWithoutNewLogin(component: ComponentRef, properties: seq<Property>,
                                                 desc: Option<OfferDesc>, event: bool, rounds: seq<RegisterRound>)
    requires forall k :: 0 <= k < |rounds| ==> !Calls(rounds[k].login, desc)
    ensures var r := Retrying(component, properties, desc, event, rounds);
      r.calls == 0 && r.fired == [] && r.desc == desc
    decreases |rounds|
  {
    if |rounds| > 0 {
      var rd := rounds[0];
      assert !Calls(rd.login, desc);
      var h := Handle(component, properties, desc, rd);
      var event' := event || rd.resetRequested;
      if !rd.shutdownRequested {
        if h.retry {
          NoCallWithoutNewLogin(component, properties, desc, event', rounds[1..]);
        } else if event' {
          NoCallWithoutNewLogin(component, properties, desc, false, rounds[1..]);
        }
      }
    }
  }

  /** The descriptor the run leaves is the one it started with or one the
      registry returned in some iteration. */
  lemma {:induction false} DescriptorFromRegistry(component: ComponentRef, properties: seq<Property>,
                                                  desc: Option<OfferDesc>, event: bool, rounds: seq<RegisterRound>)
    ensures var r := Retrying(component, properties, desc, event, rounds);
      r.desc == desc || (r.desc.Some? && exists k :: 0 <= k < |rounds| && rounds[k].reply == Registered(r.desc.value))
    decreases |rounds|
  {
    if |rounds| > 0 {
      var rd := rounds[0];
      var h := Handle(component, properties, desc, rd);
      var event' := event || rd.resetRequested;
      if !rd.shutdownRequested {
        var next := Continue(component, properties, h, event', rounds[1..]);
        if h.retry {
          DescriptorFromRegistry(component, properties, h.desc, event', rounds[1..]);
        } else if event' {
          DescriptorFromRegistry(component, properties, h.desc, false, rounds[1..]);
        }
        if next.desc != h.desc {
          var k :| 0 <= k < |rounds[1..]| && rounds[1..][k].reply == Registered(next.desc.value);
          assert rounds[k + 1].reply == Registered(next.desc.value);
        }
      }
    }
  }

  /** Handling consumes the event: a retry loop entered with the event cleared,
      during which no reset() arrives, ends with the event lowered. */
  lemma {:induction false} RunConsumesEvent(component: ComponentRef, properties: seq<Property>,
                                            desc: Option<OfferDesc>, rounds: seq<RegisterRound>)
    requires forall k :: 0 <= k < |rounds| ==> !rounds[k].resetRequested
    ensures !Retrying(component, properties, desc, false, rounds).event
    decreases |rounds|
  {
    if |rounds| > 0 {
      var rd := rounds[0];
      assert !rd.resetRequested;
      var h := Handle(component, properties, desc, rd);
      if !rd.shutdownRequested && h.retry {
        RunConsumesEvent(component, properties, h.desc, rounds[1..]);
      }
    }
  }

  /** A shutdown requested during iteration k ends the task after that
      iteration: no later iteration runs and the run does not stay pending. */
  lemma {:induction false} RegisterStopsAfterShutdown(component: ComponentRef, properties: seq<Property>,
                                                      desc: Option<OfferDesc>, event: bool,
                                                      rounds: seq<RegisterRound>, k: nat)
    requires k < |rounds| && rounds[k].shutdownRequested
    ensures var r := Retrying(component, properties, desc, event, rounds);
      r.iterations <= k + 1 && r.status != Pending
    decreases |rounds|
  {
    if k > 0 {
      var rd := rounds[0];
      var h := Handle(component, properties, desc, rd);
      var event' := event || rd.resetRequested;
      if !rd.shutdownRequested {
        if h.retry {
          RegisterStopsAfterShutdown(component, properties, h.desc, event', rounds[1..], k - 1);
        } else if event' {
          RegisterStopsAfterShutdown(component, properties, h.desc, false, rounds[1..], k - 1);
        }
      }
    }
  }

  /** Registering under a new login: an event handled under login L, with the
      registry answering with a descriptor, makes one call, keeps that
      descriptor and then waits for the next event. */
  lemma NewLoginRegisters(component: ComponentRef, properties: seq<Property>, desc: Option<OfferDesc>,
                          login: LoginInfo, d: OfferDesc, rounds: seq<RegisterRound>)
    requires LoginIdOf(desc) != Some(login.id)
    requires |rounds| > 0 && rounds[0].login == Some(login) && rounds[0].reply == Registered(d)
    requires !rounds[0].resetRequested && !rounds[0].shutdownRequested
    ensures DoRegisterSpec(component, properties, desc, true, false, rounds) ==
      RegisterRun(1, 1, [], Some(d), false, false, Blocked)
  {
    assert Calls(rounds[0].login, desc);
    assert Retrying(component, properties, desc, false, rounds) ==
      JoinRegister(1, 1, [], Waiting(component, properties, Some(d), false, rounds[1..]));
  }

  /** A reset that finds the offer already registered under the current login
      (the invalid-login callback after the login was renewed and the offer
      re-registered) makes no call and leaves the descriptor as it is. */
  lemma ResetUnderSameLoginIsIdle(component: ComponentRef, properties: seq<Property>, d: OfferDesc,
                                  login: LoginInfo, rounds: seq<RegisterRound>)
    requires LoginIdOf(Some(d)) == Some(login.id)
    requires |rounds| > 0 && rounds[0].login == Some(login)
    requires !rounds[0].resetRequested && !rounds[0].shutdownRequested
    ensures DoRegisterSpec(component, properties, Some(d), true, false, rounds) ==
      RegisterRun(1, 0, [], Some(d), false, false, Blocked)
  {
    assert !Calls(rounds[0].login, Some(d));
    assert Retrying(component, properties, Some(d), false, rounds) ==
      JoinRegister(1, 0, [], Waiting(component, properties, Some(d), false, rounds[1..]));
  }
}
