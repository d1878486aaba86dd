/** The assistant itself: its shutdown flag and the offers it keeps registered,
    registerService, shutdown, the invalid-login callback (OnInvalidLogin) and the
    DoRegister task that maintains one offer. */
module AssistantCore {
  import opened Wrappers
  import opened Bus
  import opened Offers
  import Login

  class Assistant {
    /** The volatile flag set by shutdown() and read by every loop. */
    var shutdown: bool
    /** The offers registered through registerService, in registration order. */
    var offers: seq<Offer>

    /** A new assistant runs and keeps no offers yet. */
    constructor ()
      ensures !shutdown && offers == []
    {
      shutdown := false;
      offers := [];
    }

    /** registerService(component, properties): copies the properties into a new
        offer (a null array raises NullPointerException before anything is kept),
        adds it to the offers, and hands a DoRegister task to the thread pool,
        which refuses it once the assistant has been shut down. */
    method RegisterService(component: ComponentRef, properties: array?<Property>) returns (r: Outcome<Exception>)
      modifies this`offers
      ensures properties == null ==> r == Fail(NullPointer) && offers == old(offers)
      ensures properties != null ==>
        |offers| == |old(offers)| + 1 && offers[..|old(offers)|] == old(offers) &&
        fresh(offers[|old(offers)|]) &&
        offers[|old(offers)|].component == component && offers[|old(offers)|].properties == properties[..] &&
        offers[|old(offers)|].offer.None? && offers[|old(offers)|].event &&
        r == (if shutdown then Fail(RejectedExecution) else Pass)
    {
      if properties == null {
        return Fail(NullPointer);
      }
      var offer := new Offer(component, properties);
      offers := offers + [offer];
      if shutdown {
        r := Fail(RejectedExecution);
      } else {
        r := Pass;
      }
    }

    /** shutdown(): raises the flag every loop of the assistant checks. */
    method Shutdown()
      modifies this`shutdown
      ensures shutdown && offers == old(offers)
    {
      shutdown := true;
    }

    /** OnInvalidLogin.invalidLogin: runs DoLogin in the calling thread, then
        resets every offer so that its DoRegister task checks the registration
        again. Descriptors are left for DoRegister to compare. */
    method InvalidLogin(current: Option<LoginInfo>, rounds: seq<Login.LoginRound>) returns (run: Login.LoginRun)
      requires current.Some? || Login.LoginEnds(shutdown, rounds)
      modifies this`shutdown, offers
      ensures run == Login.DoLoginSpec(current, old(shutdown), rounds)
      ensures shutdown == run.shutdown
      ensures forall j :: 0 <= j < |offers| ==> offers[j].event && offers[j].offer == old(offers[j].offer)
    {
      run := Login.DoLogin(current, shutdown, rounds);
      shutdown := run.shutdown;
      var i := 0;
      while i < |offers|
        invariant 0 <= i <= |offers|
        invariant forall j :: 0 <= j < i ==> offers[j].event
        invariant forall j :: 0 <= j < |offers| ==> offers[j].offer == old(offers[j].offer)
        invariant shutdown == run.shutdown
      {
        offers[i].Reset();
        i := i + 1;
      }
    }

    /** The body of DoRegister's retry loop, up to the shutdown check: with a
        login, registryOffer() is called when the login differs from the one the
        descriptor records, and the retries end when it succeeds or the logins
        agree; without a login the loop retries. A reset() arriving meanwhile
        raises the event again. */
    method RetryOnce(offer: Offer, rd: RegisterRound) returns (retry: bool, called: bool, fired: seq<Failure>)
      modifies offer`offer, offer`event
      ensures Handled(called, retry, offer.offer, fired) == Handle(offer.component, offer.properties, old(offer.offer), rd)
      ensures offer.event == (old(offer.event) || rd.resetRequested)
    {
      retry, called, fired := true, false, [];
      if rd.login.Some? {
        var id := offer.LoginId();
        if Some(rd.login.value.id) != id {
          retry, fired := offer.RegistryOffer(rd.reply, rd.callbackThrows);
          called := true;
        } else {
          retry := false;
        }
      }
      if rd.resetRequested {
        offer.Reset();
      }
    }

    /** DoRegister's inner loop `while (retry && !shutdown)`, entered with `retry`
        true at round `start` of the script. It also stops when the script ends;
        the caller reports that run as pending. */
    method RetryRegistration(offer: Offer, rounds: seq<RegisterRound>, start: nat)
      returns (end: nat, retry: bool, calls: nat, fired: seq<Failure>)
      requires start <= |rounds| && !shutdown
      modifies this`shutdown, offer`offer, offer`event
      ensures start <= end <= |rounds|
      ensures end == start ==> retry && !shutdown
      ensures var spec := Retrying(offer.component, offer.properties, old(offer.offer), old(offer.event), rounds[start..]);
        && (shutdown ==> spec == RegisterRun(end - start, calls, fired, offer.offer, offer.event, true, Stopped))
        && (!shutdown && retry ==>
              end == |rounds| &&
              spec == JoinRegister(end - start, calls, fired,
                                   Retrying(offer.component, offer.properties, offer.offer, offer.event, rounds[end..])))
        && (!shutdown && !retry ==>
              spec == JoinRegister(end - start, calls, fired,
                                   Waiting(offer.component, offer.properties, offer.offer, offer.event, rounds[end..])))
    {
      ghost var spec := Retrying(offer.component, offer.properties, offer.offer, offer.event, rounds[start..]);
      end, retry, calls, fired := start, true, 0, [];
      while retry && !shutdown && end < |rounds|
        invariant start <= end <= |rounds|
        invariant end == start ==> retry && !shutdown
        invariant shutdown ==> spec == RegisterRun(end - start, calls, fired, offer.offer, offer.event, true, Stopped)
        invariant !shutdown && retry ==>
          spec == JoinRegister(end - start, calls, fired,
                               Retrying(offer.component, offer.properties, offer.offer, offer.event, rounds[end..]))
        invariant !shutdown && !retry ==>
          spec == JoinRegister(end - start, calls, fired,
                               Waiting(offer.component, offer.properties, offer.offer, offer.event, rounds[end..]))
        decreases |rounds| - end
      {
        RetryAdvance(offer.component, offer.properties, offer.offer, offer.event, rounds, start, end, calls, fired, spec);
        var rd := rounds[end];
        var called, f;
        retry, called, f := RetryOnce(offer, rd);
        if called {
          calls := calls + 1;
        }
        fired := fired + f;
        shutdown := shutdown || rd.shutdownRequested;
        end := end + 1;
      }
    }

    /** DoRegister.run for `offer`: the outer loop waits for the offer's event and
        clears it; the inner loop retries until the offer is registered under the
        current login or shutdown is observed. A blocking wait ends the run. */
    method DoRegister(offer: Offer, rounds: seq<RegisterRound>) returns (run: RegisterRun)
      modifies this`shutdown, offer`offer, offer`event
      ensures run == DoRegisterSpec(offer.component, offer.properties, old(offer.offer), old(offer.event),
                                    old(shutdown), rounds)
      ensures offer.offer == run.desc && offer.event == run.event && shutdown == run.shutdown
    {
      ghost var spec := DoRegisterSpec(offer.component, offer.properties, offer.offer, offer.event, shutdown, rounds);
      var i: nat, calls: nat, fired: seq<Failure> := 0, 0, [];
      var status := Stopped;
      SliceStart(rounds);
      while !shutdown
        invariant i <= |rounds|
        invariant shutdown ==> spec == RegisterRun(i, calls, fired, offer.offer, offer.event, true, Stopped)
        invariant !shutdown ==>
          spec == JoinRegister(i, calls, fired, Waiting(offer.component, offer.properties, offer.offer, offer.event, rounds[i..]))
        decreases |rounds| - i
      {
        if !offer.event {
          assert fired + [] == fired;
          status := Blocked;
          break;
        }
        offer.event := false;
        var end, retry, more, f := RetryRegistration(offer, rounds, i);
        if !shutdown {
          ghost var rest := if retry then Retrying(offer.component, offer.properties, offer.offer, offer.event, rounds[end..])
                            else Waiting(offer.component, offer.properties, offer.offer, offer.event, rounds[end..]);
          JoinTwice(i, calls, fired, end - i, more, f, rest);
        }
        i, calls, fired := end, calls + more, fired + f;
        if retry && !shutdown {
          assert rounds[i..] == [] && fired + [] == fired;
          status := Pending;
          break;
        }
      }
      run := RegisterRun(i, calls, fired, offer.offer, offer.event, shutdown, status);
    }
  }
}
