# OpenBus assistant: model of the Java `Assistant` core

The OpenBus assistant (`tecgraf.openbus.assistant.Assistant`) sits between an
application and an OpenBus connection. It keeps the application logged in, keeps
the application's service offers registered in the bus's offer registry, and
offers queries (`findServices`, `getAllServices`, `startSharedAuth`) that retry:
a given number of times when `retries` is non-negative, and until shutdown when
it is negative. Every failure is reported to an `OnFailureCallback`.
Credentials come from `AuthArgs` objects that the application's
`onLoginAuthentication()` supplies.

This project models that core in Dafny:

- `wrappers.dfy` (module `Wrappers`): `Option`, `Result` and `Outcome`.
- `bus.dfy` (module `Bus`): logins, service properties, offer descriptors, the
  exceptions the assistant tells apart, and the failure-callback notices. It
  also defines `FirstValue`, the property lookup behind `Offer.loginId()`.
- `auth_args.dfy` (module `Auth`): the three `AuthArgs` constructors and the
  object shapes they produce.
- `queries.dfy` (module `Queries`):
  - the per-call wrappers `find`, `getAll` and `startSharedAuthentication`;
  - the retry decision `shouldRetry`;
  - the shared do-while of the three public queries, as an imperative loop
    (`RunQuery`) proved equal to a recursive specification (`QueryLoop`).
- `login.dfy` (module `Login`):
  - `login()`, with the `switch` over the authentication mode as written (its
    cases have no `break`);
  - the `DoLogin` task loop, as a method (`DoLogin`) proved equal to
    `DoLoginSpec`.
- `offers.dfy` (module `Offers`):
  - the inner class `Offer` as a Dafny class, with its descriptor and its event
    flag as mutable fields;
  - the specification of the `DoRegister` task: `Waiting` models the outer loop
    and `Retrying` the retry loop.
- `assistant.dfy` (module `AssistantCore`): the `Assistant` class with its
  shutdown flag and its list of offers. It models:
  - `registerService` and `shutdown`;
  - the invalid-login callback;
  - the `DoRegister` task, as two nested loops proved equal to
    `DoRegisterSpec`.

Remote calls and other threads are modelled as a script of rounds, one per loop
iteration. The connection and the registry are remote. `shutdown()` may run on
another thread, or on the looping thread itself from inside a failure callback;
either way it shows up as a flag in the round during which it ran. Each round
states:

- which login the connection reports;
- what the remote call does (returns, returns null, or throws);
- whether the failure callback throws;
- whether `shutdown()` (and, for offers, `reset()`) was called while the
  iteration ran.

The volatile shutdown flag that a loop reads is the running "or" of these
requests. A loop that may run forever gets a precondition: its script holds a
round at which the loop must stop (`QueryEnds`, `LoginEnds`). The `DoRegister`
task never ends on its own. It is observed over a finite script instead, and a
script that ends while the task still retries gives the status `Pending`.

## Model

| member | source | states |
|---|---|---|
| Bus.FirstValue | core/src/tecgraf/openbus/assistant/Assistant.java:820-831 | The value of the first property with the name, or nothing; its meaning is proved in Bus.FirstValueFinds. |
| Bus.FirstValueFinds | core/src/tecgraf/openbus/assistant/Assistant.java:820-831 | The property scan returns nothing exactly when no property has the name; otherwise it returns the value of the first property with that name. |
| Auth.WithPassword | core/src/tecgraf/openbus/assistant/AuthArgs.java:45-53 | The password constructor fails with IllegalArgumentException exactly when the entity or the password is null. Otherwise it yields a password-mode object holding both, with the other fields null. |
| Auth.WithPrivateKey | core/src/tecgraf/openbus/assistant/AuthArgs.java:62-70 | The certificate constructor fails with IllegalArgumentException exactly when the entity or the key is null. Otherwise it yields a certificate-mode object holding both, with the other fields null. |
| Auth.WithSecret | core/src/tecgraf/openbus/assistant/AuthArgs.java:77-83 | The shared-auth constructor fails with IllegalArgumentException exactly when the secret is null. Otherwise it yields a sharing-mode object holding only the secret. |
| Auth.ValidIsConstructed | core/src/tecgraf/openbus/assistant/AuthArgs.java:45-83 | Every well-shaped AuthArgs is what its own mode's constructor builds from its fields, so the constructors produce exactly the well-shaped objects. |
| Queries.Guard | core/src/tecgraf/openbus/assistant/Assistant.java:609-658 | A wrapper fails exactly when the call throws. It then rethrows that exception and notifies the callback once with it. Otherwise it returns the call's (possibly null) result and notifies nothing. |
| Queries.Find | core/src/tecgraf/openbus/assistant/Assistant.java:609-658 | find(): a registry exception is rethrown and reported once through onFindFailure; an answer is returned with no notice. |
| Queries.GetAll | core/src/tecgraf/openbus/assistant/Assistant.java:668-717 | getAll(): like find(), also reporting through onFindFailure. |
| Queries.StartSharedAuthentication | core/src/tecgraf/openbus/assistant/Assistant.java:727-776 | startSharedAuthentication(): an exception is rethrown and reported once through onStartSharedAuthFailure. |
| Queries.ShouldRetry | core/src/tecgraf/openbus/assistant/Assistant.java:425-438 | A retry never happens after shutdown. With a non-negative retries it happens exactly when attempts remain (attempt >= 0); with a negative retries it happens exactly while there is no shutdown. |
| Queries.Iterate | core/src/tecgraf/openbus/assistant/Assistant.java:304-316 | One iteration returns exactly when there is a login and the call answers non-null. It records the exception exactly when there is a login and the call throws. It calls only with a login and notifies once per failing call. |
| Queries.QueryLoop | core/src/tecgraf/openbus/assistant/Assistant.java:302-321 | A query run makes at least one iteration and never uses more rounds than its script holds. |
| Queries.Attempt | core/src/tecgraf/openbus/assistant/Assistant.java:304-316 | The imperative loop body equals the iteration specification. |
| Queries.RunQuery | core/src/tecgraf/openbus/assistant/Assistant.java:302-321 | The do-while over `attempt` and `last` computes exactly the run that QueryLoop specifies. |
| Queries.QueryAttemptsBounded | core/src/tecgraf/openbus/assistant/Assistant.java:302-317 | With retries >= 0 a query makes at most attempt + 1 iterations, whatever the bus does. |
| Queries.QueryExhausts | core/src/tecgraf/openbus/assistant/Assistant.java:302-317 | With retries >= 0, no result and no shutdown, a query makes exactly attempt + 1 iterations. |
| Queries.QueryUnboundedContinues | core/src/tecgraf/openbus/assistant/Assistant.java:425-426 | With retries < 0 the loop passes every round before the first that returns a result or requests shutdown. |
| Queries.QueryStopsAtShutdown | core/src/tecgraf/openbus/assistant/Assistant.java:425-426 | A shutdown requested in round k ends the query after at most k + 1 iterations, whatever retries says. |
| Queries.QueryOutcomeIsFinalIteration | core/src/tecgraf/openbus/assistant/Assistant.java:304-321 | The outcome is decided by the final iteration alone. It is the value it returned, else the exception it recorded, else nothing; every earlier iteration returned nothing. |
| Queries.QueryCallbacks | core/src/tecgraf/openbus/assistant/Assistant.java:304-316 | A query makes one call per iteration that has a login, and notifies the callback once per failing call, in order. |
| Queries.QueryWithoutLogin | core/src/tecgraf/openbus/assistant/Assistant.java:304-321 | Without a login in any round, a query makes no call, notifies nothing and ends with nothing to rethrow. |
| Queries.UnboundedFindAfterShutdown | core/src/tecgraf/openbus/assistant/Assistant.java:300-322 | findServices with retries -1 after shutdown, without a login, returns an empty array after a single iteration. |
| Queries.FindServices | core/src/tecgraf/openbus/assistant/Assistant.java:300-322 | findServices returns the found offers or rethrows the last exception; when there is neither, it returns an empty array. Its callback notices are those of the run. |
| Queries.GetAllServices | core/src/tecgraf/openbus/assistant/Assistant.java:343-364 | getAllServices has the same result rules as findServices. |
| Queries.StartSharedAuth | core/src/tecgraf/openbus/assistant/Assistant.java:394-415 | startSharedAuth returns the secret or rethrows the last exception; when there is neither, it returns null. |
| Login.SwitchCalls | core/src/tecgraf/openbus/assistant/Assistant.java:526-533 | The switch falls through. Password mode makes three calls (password, certificate, shared auth); certificate mode makes two; sharing mode makes one. The fall-through calls pass the object's other, null, fields. |
| Login.Perform | core/src/tecgraf/openbus/assistant/Assistant.java:526-534 | The calls are made in order until one throws. Every earlier call returned, and the exception is the last call's. |
| Login.LoginError | core/src/tecgraf/openbus/assistant/Assistant.java:520-597 | login()'s failure classification: NullPointerException for null credentials; the exception the provider or the first throwing call raised; none for AlreadyLoggedIn or when every call returns. |
| Login.LoginOnce | core/src/tecgraf/openbus/assistant/Assistant.java:520-597 | login() fails exactly when the credentials are null or a call or the provider throws something other than AlreadyLoggedIn. A failure notifies onLoginFailure once with that exception (NullPointerException for null credentials); a success notifies nothing. |
| Login.PasswordModeFallsThrough | core/src/tecgraf/openbus/assistant/Assistant.java:526-534 | A password-mode login with no exception makes the password call, then a certificate call with a null key, then a shared-auth call with a null secret. |
| Login.PasswordModeFailsOnCertificateCall | core/src/tecgraf/openbus/assistant/Assistant.java:526-597 | After a successful password call, an exception other than AlreadyLoggedIn from the fall-through certificate call makes login() fail and report it. |
| Login.NullSecretFailsAttempt | core/src/tecgraf/openbus/assistant/AuthArgs.java:77-81 | Credentials built from a null secret make login() fail with IllegalArgumentException, reported once, without any connection call. |
| Login.LoginLoop | core/src/tecgraf/openbus/assistant/Assistant.java:995-1005 | The login loop ends only after a successful attempt or an observed shutdown. It never makes more attempts than its script has rounds. |
| Login.DoLoginSpec | core/src/tecgraf/openbus/assistant/Assistant.java:988-1005 | With a login already present, DoLogin makes no attempt and notifies nothing. |
| Login.DoLogin | core/src/tecgraf/openbus/assistant/Assistant.java:988-1005 | The `while (retry && !shutdown)` loop computes exactly the run DoLoginSpec specifies. |
| Login.LoginLoopNotifiesFailedAttempts | core/src/tecgraf/openbus/assistant/Assistant.java:995-1005 | The callbacks of a DoLogin run are exactly the notices of its attempts, in order. Each failed attempt notifies onLoginFailure once with its own exception, and the successful attempt notifies nothing. |
| Login.LoginStopsAfterShutdown | core/src/tecgraf/openbus/assistant/Assistant.java:995-996 | A shutdown requested during attempt k prevents every later attempt. |
| Login.LoginRetriesUntilDone | core/src/tecgraf/openbus/assistant/Assistant.java:995-996 | Without shutdown, failed attempts never end the loop before the first round that succeeds. |
| Login.NullSecretThenShutdownInCallback | core/src/tecgraf/openbus/assistant/Assistant.java:995-1005 | A null secret fails the attempt with IllegalArgumentException. A shutdown requested during that attempt then ends the loop after exactly one attempt. |
| Offers.LoginIdOfFindsLoginProperty | core/src/tecgraf/openbus/assistant/Assistant.java:820-831 | The recorded login is absent without a descriptor or without an "openbus.offer.login" property. Otherwise it is the value of the first such property. |
| Offers.Register | core/src/tecgraf/openbus/assistant/Assistant.java:840-922 | registryOffer() fails exactly when the registry throws. It then keeps the old descriptor and notifies onRegisterFailure once with the component, the properties and the exception. On success it keeps the new descriptor and notifies nothing. |
| Offers.Offer.constructor | core/src/tecgraf/openbus/assistant/Assistant.java:807-812 | A new offer holds a copy of the properties array's contents, taken at construction, and no descriptor, with its event raised. |
| Offers.Offer.LoginId | core/src/tecgraf/openbus/assistant/Assistant.java:820-831 | loginId() returns the login the descriptor records. |
| Offers.Offer.RegistryOffer | core/src/tecgraf/openbus/assistant/Assistant.java:840-922 | The method's result, new descriptor and notices are those Register specifies. |
| Offers.Offer.Reset | core/src/tecgraf/openbus/assistant/Assistant.java:929-935 | reset() raises the event. |
| Offers.Handle | core/src/tecgraf/openbus/assistant/Assistant.java:1057-1064 | An iteration calls the registry exactly when the login exists and differs from the descriptor's. Without a login it retries; with the same login it stops without a call; otherwise registryOffer() decides. |
| Offers.Waiting | core/src/tecgraf/openbus/assistant/Assistant.java:1039-1054 | DoRegister.run's outer loop after its shutdown check: blocks without an event, otherwise clears it and enters the retry loop. Its properties are the Offers lemmas below. |
| Offers.Retrying | core/src/tecgraf/openbus/assistant/Assistant.java:1055-1078 | DoRegister.run's retry loop, one round per iteration: stops on shutdown, repeats while `retry` holds, otherwise returns to the outer loop. Its properties are the Offers lemmas below. |
| Offers.DoRegisterSpec | core/src/tecgraf/openbus/assistant/Assistant.java:1037-1081 | A task that starts after shutdown does nothing. A task with no event pending blocks without an iteration. |
| Offers.RunShape | core/src/tecgraf/openbus/assistant/Assistant.java:1037-1081 | A register run makes at most one iteration per round and at most one registry call per iteration. It is stopped exactly when it saw the shutdown flag. When blocked it has no event pending; when pending it has used the whole script. |
| Offers.FailuresNotifyTheOffer | core/src/tecgraf/openbus/assistant/Assistant.java:1055-1064 | Every callback invocation of a register run is an onRegisterFailure for this offer's component and properties. There is at most one per registry call. |
| Offers.NoCallWithoutNewLogin | core/src/tecgraf/openbus/assistant/Assistant.java:1057-1064 | Without a login other than the recorded one, a register run makes no call, notifies nothing and keeps the descriptor. |
| Offers.DescriptorFromRegistry | core/src/tecgraf/openbus/assistant/Assistant.java:1055-1064 | The descriptor after a run is the initial one or one the registry returned in some round. |
| Offers.RunConsumesEvent | core/src/tecgraf/openbus/assistant/Assistant.java:1043-1051 | Handling consumes the event: without a reset during the retries, the event is lowered at the end. |
| Offers.RegisterStopsAfterShutdown | core/src/tecgraf/openbus/assistant/Assistant.java:1039-1055 | A shutdown requested in iteration k ends the task after at most k + 1 iterations; the run is not left pending. |
| Offers.NewLoginRegisters | core/src/tecgraf/openbus/assistant/Assistant.java:1037-1081 | An event handled under a new login, with the registry accepting, makes one call. It keeps the new descriptor and then waits for the next event. |
| Offers.ResetUnderSameLoginIsIdle | core/src/tecgraf/openbus/assistant/Assistant.java:1057-1064 | An event handled under the login the descriptor already records makes no call and keeps the descriptor. |
| AssistantCore.Assistant.constructor | core/src/tecgraf/openbus/assistant/Assistant.java:82-85 | A new assistant is not shut down and keeps no offers. |
| AssistantCore.Assistant.RegisterService | core/src/tecgraf/openbus/assistant/Assistant.java:266-271 | A null properties array raises NullPointerException and keeps nothing. Otherwise one fresh, unregistered offer with its event raised is appended and the other offers stay as they were. The task is refused with RejectedExecutionException after shutdown. |
| AssistantCore.Assistant.Shutdown | core/src/tecgraf/openbus/assistant/Assistant.java:460-461 | shutdown() raises the flag and leaves the offers as they are. |
| AssistantCore.Assistant.InvalidLogin | core/src/tecgraf/openbus/assistant/Assistant.java:951-961 | The invalid-login callback runs DoLogin in full, then raises every offer's event without touching any descriptor. |
| AssistantCore.Assistant.RetryOnce | core/src/tecgraf/openbus/assistant/Assistant.java:1056-1064 | The body of the retry loop does what Handle specifies; a reset during it raises the event. |
| AssistantCore.Assistant.RetryRegistration | core/src/tecgraf/openbus/assistant/Assistant.java:1055-1078 | The retry loop runs Retrying's rounds. It ends stopped on shutdown, back at the outer loop once registered (or same login), or at the end of the script while still retrying. |
| AssistantCore.Assistant.DoRegister | core/src/tecgraf/openbus/assistant/Assistant.java:1037-1081 | DoRegister.run's nested loops compute exactly DoRegisterSpec's run. They leave the offer's descriptor and event and the shutdown flag as the run states. |

## Left out

- Threads, the thread pool, `wait`/`notifyAll` and the offer lock are not modelled. Another thread's `shutdown()` or `reset()` appears as a flag in the round of the iteration during which it happened.
- `Thread.sleep` between retries is not modelled, and neither are interrupts and the `break` an `InterruptedException` causes in the DoRegister loops.
- Only the first blocking wait of a DoRegister run is observed. A run that blocks ends there (`Blocked`), so waking it by `reset()` or by the interrupt of `shutdownNow` is not modelled.
- Queries.QueryLoop, Login.LoginLoop: runs that never end are not modelled. The script must contain a round at which the loop stops.
- Offers.Waiting, Offers.Retrying: a DoRegister run is observed over a finite script; a script that ends while the task still retries gives `Pending`.
- Exceptions are collapsed into the kinds the assistant treats differently:
  - AlreadyLoggedIn;
  - NullPointerException;
  - IllegalArgumentException;
  - RejectedExecutionException;
  - one `BusError` for every bus, transport, registry and unexpected exception.

  The catch clauses differ only in what they log.
- Logging is left out.
- Queries.Guard, Offers.Register, Login.LoginOnce: an exception thrown by the failure callback is a round parameter. The source logs and drops it, and the model provably ignores it.
- The ORB, the `OpenBusContext`, connection creation, the `AssistantParams` validation of host, port and interval, and the factory methods are not part of this model.
- `shutdown()`'s logout, pool termination and its timeout are not part of this model; only the flag is.
- Queries.FindServices: the searched properties are not modelled. The registry's answers to that search are the script.
- Queries.ShouldRetry: `attempt` is an unbounded integer, not Java's wrapping `int`. This changes no decision. With `retries >= 0`, `attempt` never drops below -1 before the loop stops. With `retries < 0`, the `retries < 0 ||` test short-circuits and `attempt` is never read.
- Offers.Offer.constructor: `Arrays.copyOf` copies the array, not the `ServiceProperty` structs in it. The model stores the property values, so aliasing is not captured: a caller that mutates a property struct after `registerService` would change the offer's properties.
- The `domain` argument of `loginByPassword` is not a field of this version of `AuthArgs`. The password call carries the entity and password only.
- `ServiceOfferDesc` is reduced to its property list, and components and secrets to identities.
- `onLoginAuthentication()` is a round parameter: its returned credentials, a null, or its exception.
- The default failure callback and the demos are not part of this model.
