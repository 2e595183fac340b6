# Verified model of one-nats

one-nats wraps the NATS streaming client so that an application survives a broker that is away when it
connects, restarts after it subscribed, or is away when it publishes. This project models what the
wrapper adds in its Go, C# and Java editions and proves properties of it. The streaming library and the
network are an environment that may accept or refuse every single request; all results hold for every
such behaviour.

`dafny verify dfyconfig.toml` checks everything.

## Contents

- `GoThreads.dfy`, `GoThreadsInv.dfy`, `GoThreadsRuns.dfy`, `GoTheorems.dfy`, `GoClose.dfy`: the Go client
  as a state machine of interleaved threads. A step is one access to shared state; mutexes are not
  re-entrant; channels are unbuffered. The invariant is proved by rely and guarantee: each kind of step
  meets `Guarantee`, and `Stable` shows that every other thread keeps what it knows.
- `GoProgress.dfy`: how long the Go client's mutex can be held.
- `GoCloseReturns.dfy`, `GoSchedules.dfy`, `GoCloseExactly.dfy`, `GoCloseAlone.dfy`, `GoWitnesses.dfy`: when Go's
  `Close` returns.
  `Hung` is kept by every step; from every other state a schedule is built, with a rank that bounds the
  steps each thread needs before it waits for somebody. `GoWitnesses` has concrete runs.
- `Registry.dfy`, `RegistryInv.dfy`, `RegistryTheorems.dfy`, `RegistryExact.dfy`: the registry of subscriptions and the
  connection it is replayed on, one API call or loop turn at a time, for C# and Go. The environment also
  chooses the order in which a map is enumerated. The resubscription loop has a closed form (`Replayed`).
  `RegistryExact` says request by request what each call asks the broker for.
- `GoSequential.dfy`: a call of the interleaved Go client that nobody interferes with does what the same call
  does in the machine of `Registry.dfy`, for every behaviour of the broker.
- `CSharpNats.dfy`, `GoNats.dfy`, `StreamingLibrary.dfy`: the C# and Go clients as classes updated in place,
  with the mutual recursion of `reconnect` and `internalSubscribe`, proved to run that machine. C# records
  are objects; Go records are struct values, and what a range loop assigns to its copy is lost.
- `CSharpAbort.dfy`, `CSharpAbortTheorems.dfy`, `CSharpAbortSequential.dfy`: the C# client's abort event, with its
  threads interleaved, and the same comparison with `Registry.dfy`.
- `Retry.dfy`: the three publish loops and the one function they compute.
- `JavaMachine.dfy`, `JavaTheorems.dfy`, `JavaSubject.dfy`: the Java subject as interleaved locked steps, and as
  a class. `NatsStreamSubject` and `NatsSubject` are both instances.
- `ServiceId.dfy`, `Text.dfy`: recovering a service name from a client id, against a declarative meaning of
  the regular expression.

## What turned out not to hold

- Go, nil connection. `internalPublish` and the first `internalSubscribe` of a call use `m.conn` after
  `reconnect` has returned, without the lock. `PanicExactly` says exactly when that is a call on nil, and
  `PanicCanHappen` gives a run, and `NoUndercutNoPanic` a condition on whole runs that excludes it.
- Go, `Close`. It sends on each publisher's channel while holding the lock the publisher needs to clean up, so
  a publisher with no delay left to wait for blocks it: from the moment `Close` owns that lock it never
  returns, though it may still signal others. A second `Close` whose loop has already been stopped by
  the first hangs on `reconnectAbort`, and one that waits for the lock of a blocked `Close` hangs too.
  `CloseReturnsExactly` shows that these are the only cases: in every other state some continuation
  (refused requests, other calls of the API) lets `Close` return. `LastAttemptHangs` and
  `SecondCloseHangs` give runs. `CloseQuiescence` is therefore about runs in which `Close` returns.
  `LoneCloseReturns` has a condition that a caller can check before calling.
- C#, `Close`. It sets an event that every reconnect resets, so a publish or subscribe in flight that still has
  to reconnect wipes it out, and publishers go on retrying after `Close` has returned. `AbortExactly` says
  exactly when, `CloseCanBeIgnored` gives a run. Publishers that are waiting when the event is set do
  stop (`WaitersStop`).
- Go, stale handles. After any reconnect the stored handles belong to older connections (`GoLosesTrack`), so
  `Unsubscribe` removes the token and leaves its subscription running. `GoRemovalEndsExactly` gives the exact
  condition and `StaleHandle` a run. C# does not have this problem (`RemovalEnds`).
- Java, re-opening. A guard tick that tested the connection before `close` and takes the lock after it
  reconnects a closed subject; the next `open` then overwrites that connection. `SafeExactly` identifies the
  one step at fault, `SafeRunExactly` the runs at fault, `StraddlingGuardLeaks` gives one, and `BindingInvariant`
  covers all runs in which callers take care.
- Java, overlapping opens. Two threads that re-open a closed subject at once both create an executor; `close`
  shuts down the last one only, and the guard of the other reconnects the closed subject
  (`OverlappingOpensReconnect`). `OrphansExactly` says exactly which runs leave such an executor behind,
  `ClosedStaysClosed` exactly when a disconnected subject stays so.
- Client ids. The round trip through `getServiceID` fails for the empty name, among others; `GoRoundTrip` and
  `CSharpRoundTrip` give the exact conditions. (`Connect` replaces an empty name by "service" beforehand.)

## Model

| member | source | states |
|---|---|---|
| GoThreadsRuns.ThreadGood | go/nats.go:248-535 | every step of every thread changes shared state only as its guarantee allows and re-establishes its own invariant |
| GoThreadsInv.Stable | go/nats.go:170-187 | a step of one thread leaves intact what every other thread relies on |
| GoThreadsRuns.RunKeeps | go/nats.go:248-592 | the invariant holds in every state of every interleaving |
| GoTheorems.SingleConnection | go/nats.go:248-318 | at most one connection is open in any state; with no critical section active, the open ones are exactly the current one |
| GoTheorems.RetiredStaysRetired | go/nats.go:248-318 | a connection that was current and no longer is never becomes current again |
| GoTheorems.LockDiscipline | go/nats.go:284-318 | no thread waits for a lock it owns; the reconnect nested in a resubscription always finds the connection set |
| GoTheorems.OnlyTheOwnerChangesTheConnection | go/nats.go:248-270 | while a thread owns the mutex no other thread's step touches the connection |
| GoTheorems.FailedPublishesMoveForward | go/nats.go:485-535 | within one publish every attempt that reaches a connection uses a strictly newer one; only the last can be acknowledged; a returned call made 1 to delays + 1 attempts, all of them unless acknowledged or aborted |
| GoTheorems.AbortRegistry | go/nats.go:497-510 | the event map is exactly the set of publishers registered, not cleaned up and not signalled |
| GoTheorems.AbortedIsFinal | go/nats.go:526-535 | a signalled publisher makes no further attempt in any continuation, and its last one failed |
| GoTheorems.SubscribeRegisters | go/nats.go:407-427 | a returned QueueSubscribe has registered its token whatever the broker said; it is still there unless removed |
| GoTheorems.RemovedOnce | go/nats.go:429-439 | of all calls removing one token at most one succeeds |
| GoTheorems.RemovalTakesEffect | go/nats.go:429-439 | under every interleaving, a returned removal of a registered token leaves it removed: exactly one call has removed it, and this call reports success exactly if it is that one |
| GoTheorems.ReplaysTheRegistry | go/nats.go:312-315 | every connection that becomes current is replayed exactly once (the current one possibly still under way), with every token registered when the pass began and only tokens registered when it ended, none removed by then |
| GoClose.CalmStep | go/nats.go:567-592 | what a Close in progress has achieved survives every step of every other thread |
| GoClose.CloseQuiescence | go/nats.go:567-592 | if Close returns, with no subscribe or unregistered publish in flight and none started: no connection, the loop has returned, every publish has returned or was signalled, and in every continuation nothing is dialed and no publish attempts again |
| GoCloseExactly.CloseReturnsExactly | go/nats.go:567-592 | in every reachable state, some continuation lets Close return if and only if it is not hung: it owns the abort lock and no listed publisher is on its last attempt; or waits for that lock and no other Close is blocked that way; or sends the stop signal and the loop has not returned; or is at any other point |
| GoCloseReturns.HungForever | go/nats.go:569-586 | a hung Close stays hung in every continuation |
| GoCloseAlone.LoneCloseReturns | go/nats.go:567-592 | a Close called while no publish and no other Close is in flight, and none called later, is never hung: in every continuation it can still return |
| GoProgress.HoldIsBounded | go/nats.go:284-318 | in every run the owner of the mutex takes at most five steps before its release, plus three for each token registered before or meanwhile, whatever the broker answers and the others do |
| GoProgress.OwnerCanStep | go/nats.go:284-318 | the owner of the mutex never has to wait for anybody |
| GoSchedules.BringToRest | go/nats.go:485-535 | whoever owns the mutex, there is a continuation that brings a given thread between two waits to the next wait or to its return without crashing, leaving every Close where it is |
| GoWitnesses.LastAttemptHangs | go/nats.go:506-510 | a publish with no delays that has made no attempt yet already hangs a Close that takes the lock |
| GoWitnesses.SecondCloseHangs | go/nats.go:582-586 | with no publisher at all, the second of two overlapping Closes can hang |
| GoWitnesses.CloseCanReturn | go/nats.go:567-592 | what CloseQuiescence assumes can be met, with a publisher to signal: a run from Close's start to its return in which nothing else is called |
| GoClose.PanicExactly | go/nats.go:485-489 | a method is called on a nil connection exactly when a publish or first subscribe, past its reconnect, finds the connection gone; never in a resubscription |
| GoClose.NoUndercutNoPanic | go/nats.go:485-489 | a run crashes only if some step drops the connection while a call stands between its reconnect and its use of it |
| GoSequential.PublishAlone | go/nats.go:485-535 | a Publish that nobody interferes with makes the attempts of the retry loop, each with the outcome of one sequential internalPublish after the other |
| GoSequential.SubscribeAlone | go/nats.go:407-427 | a QueueSubscribe alone does what the sequential one does to connections and registry |
| GoSequential.TurnAlone | go/nats.go:324-356 | a turn of the reconnect loop alone does what the sequential turn does to connections and registry |
| GoSequential.RemoveAlone | go/nats.go:429-439 | a removal alone removes the token exactly if the sequential one does, and reports the same result |
| GoSequential.CloseAlone | go/nats.go:567-592 | a Close alone stops the loop and closes as the sequential one does |
| GoSequential.LostAlone | go/nats.go:248-270 | the lost-connection callback alone closes as the sequential internalClose does |
| GoWitnesses.PanicCanHappen | go/nats.go:300-304 | a publisher sees the connection, the lost-connection callback drops it, the publisher calls nil |
| RegistryInv.WireMeans | csharp/nats.cs:426-429 | the one request that is sent has the subject, options and callback asked for, and is a group subscription exactly if a non-empty queue was named |
| RegistryInv.OrderEnumerates | csharp/nats.cs:210-215 | an enumeration visits every key exactly once |
| RegistryInv.ReplayShape | csharp/nats.cs:210-215 | the resubscription loop in closed form: one request per record in enumeration order, its content, its handle, and what is active afterwards |
| RegistryInv.CloseShape | csharp/nats.cs:275-316 | closing leaves no connection, retires the current one, keeps tokens and requests, sends no subscribe, and (C#) leaves no handle |
| RegistryInv.ReplayedLive | csharp/nats.cs:210-215 | after a pass the live subscriptions are exactly the accepted requests |
| RegistryInv.SubscribeKeeps | csharp/nats.cs:464-485 | QueueSubscribe keeps the invariant and registers the token with the caller's request whatever the broker answers |
| RegistryTheorems.HandleAgreement | csharp/nats.cs:275-316 | C#: in every reachable state a registered token's handle is null or names its one live subscription on the current connection |
| RegistryTheorems.AtMostOneLive | go/nats.go:313-315 | in both languages a registered token has at most one live subscription, with the stored content |
| RegistryTheorems.RemovalEnds | csharp/nats.cs:498-553 | C#: an accepted removal ends the token's subscription |
| RegistryTheorems.GoRemovalEndsExactly | go/nats.go:442-483 | Go: it does so exactly when the stored handle was obtained on the current connection |
| RegistryTheorems.GoLosesTrack | go/nats.go:313-315 | Go: after a reconnect no stored handle is from the current connection |
| RegistryTheorems.ReconnectCounts | csharp/nats.cs:180-224 | a reconnect without a connection makes one connect request and, if accepted, exactly one subscribe request per record with the record's content |
| RegistryTheorems.SelfHealingTick | csharp/nats.cs:588-623 | a loop turn that finds no connection or whose ping fails gives every registered token a live subscription on a newer connection exactly when the broker accepts the connect and every subscribe; C# handles then name them |
| RegistryTheorems.RegisteredUntilRemoved | go/nats.go:407-439 | a registered token stays registered through a run exactly when the run does not remove it |
| RegistryTheorems.RemovedForGood | csharp/nats.cs:486-497 | after a successful removal no later removal of the token succeeds and no request is ever sent for it again |
| RegistryTheorems.ResubscribeFidelity | csharp/nats.cs:411-446 | every subscribe request ever sent for a token, on any connection, equals the one its QueueSubscribe asked for, in subject, options, callback and the choice between queue and plain subscribe |
| RegistryExact.RemoveExactly | csharp/nats.cs:486-553 | a removal deletes the record and nothing else, and sends exactly one request if there is a handle: to unsubscribe or to close, as called |
| RegistryExact.CloseExactly | csharp/nats.cs:275-316 | internalClose sends one close per stored handle and then one for the connection |
| RegistryExact.ReconnectExactly | csharp/nats.cs:180-224 | reconnect keeps a connection without a request; otherwise it dials, and sends one subscribe per record if that is accepted |
| RegistryExact.ConnectExactly | csharp/nats.cs:224-249 | Connect on a new client makes one connect request, and keeps the client whatever the answer |
| RegistryExact.PublishExactly | csharp/nats.cs:318-335 | internalPublish succeeds exactly when there is a connection, dialed if need be, and the broker accepts; it sends the message once, and gives the connection up exactly on refusal |
| RegistryExact.TickExactly | csharp/nats.cs:595-621 | a loop turn without subscriptions sends nothing; one whose ping is accepted sends just that and changes nothing; one whose ping is refused gives the connection up and reconnects |
| RegistryExact.SubscribeExactly | csharp/nats.cs:464-485 | QueueSubscribe sends one request with the caller's content; accepted, it is live and recorded and nothing else changes; otherwise the connection is given up and every record, the new one included, subscribed on a new one |
| RegistryExact.DoAdds | csharp/nats.cs:180-623 | which kinds of requests each call can send |
| RegistryExact.NoUnsubscribeUnasked | csharp/nats.cs:498-520 | over whole runs, nothing but Unsubscribe ever gives a durable subscription up |
| RegistryExact.DeliveredOnce | csharp/nats.cs:353-377 | a publish with retries is accepted by the broker exactly once if it reports success, and otherwise never |
| CSharpNats.Nats.Reconnect | csharp/nats.cs:180-224 | the loop with its mutual recursion terminates and computes the machine's reconnect |
| CSharpNats.Nats.InternalSubscribe | csharp/nats.cs:411-446 | computes the machine's subscribe, reconnecting first when there is no connection |
| CSharpNats.Nats.InternalClose | csharp/nats.cs:275-316 | closes every handle and the connection as the machine does |
| CSharpNats.Nats.QueueSubscribe | csharp/nats.cs:464-485 | computes the machine's QueueSubscribe and returns the new token |
| CSharpNats.Nats.EndSubscribe | csharp/nats.cs:486-553 | computes the machine's removal |
| CSharpNats.Nats.InternalPublish | csharp/nats.cs:318-335 | computes the machine's publish attempt |
| CSharpNats.Nats.Publish | csharp/nats.cs:341-382 | the publish loop around real attempts computes Retry of their outcomes, and leaves the machine where those attempts do |
| CSharpNats.Nats.ReconnectTurn | csharp/nats.cs:595-621 | computes the machine's loop turn |
| CSharpNats.Drive | csharp/nats.cs:153-623 | any sequence of calls on a new client runs the machine, and afterwards every record object's handle is null or names its live subscription |
| GoNats.Nats.Reconnect | go/nats.go:284-318 | the same loop over struct copies computes the machine's reconnect without write-back |
| GoNats.Nats.SetSubOpts | go/nats.go:368-384 | the loop computes ApplyOptions on the client's settings |
| GoNats.LastOptionWins | go/nats.go:374-377 | each field has the value that the last option for it names, and the client's setting if there is none |
| GoNats.Nats.ReqMeans | go/nats.go:368-377 | a subscribe asks for the record's subject, queue and callback, its durable name and the client's settings, except where an option says otherwise |
| GoNats.Nats.InternalClose | go/nats.go:248-270 | closes every stored handle and the connection; stored handles stay |
| GoNats.Nats.QueueSubscribe | go/nats.go:407-427 | computes the machine's QueueSubscribe with the effective options |
| GoNats.Nats.EndSubscribe | go/nats.go:429-483 | computes the machine's removal |
| GoNats.Nats.Publish | go/nats.go:497-564 | the publish loop around real attempts computes Retry of their outcomes, and leaves the machine where those attempts do |
| GoNats.Drive | go/nats.go:217-483 | any sequence of calls on a new client runs the machine, and afterwards a registered token has at most one live subscription, with the effective options of its record, named by the stored handle exactly if that was obtained on the current connection |
| GoNats.StaleHandle | go/nats.go:442-462 | subscribe, lose the connection, reconnect, unsubscribe: the token is gone and its subscription is still live |
| CSharpAbortTheorems.StepKeeps | csharp/nats.cs:180-316 | every step of every thread keeps the invariant: whoever holds the lock to dial finds no connection, nobody waits for an event that is set, and after Close the event is still set only if nothing was dialed since |
| CSharpAbortTheorems.AbortExactly | csharp/nats.cs:353-377 | Close has returned: without any new call a publish can begin another attempt if and only if it has a delay left and the event has been reset or a call in flight stands before a reconnect |
| CSharpAbortTheorems.WaitersStop | csharp/nats.cs:367 | a publish that waits while Close sets the event never begins another attempt |
| CSharpAbortTheorems.CloseCanBeIgnored | csharp/nats.cs:251-265 | a run in which Close returns and a publish can try again afterwards |
| CSharpAbortSequential.CloseReturns | csharp/nats.cs:251-265 | Close never hangs: from every reachable state a continuation without new calls lets it return |
| CSharpAbortSequential.LoopHearsStop | csharp/nats.cs:595-599 | once Close has signalled the loop, it never waits again |
| CSharpAbortSequential.PublishAlone | csharp/nats.cs:353-377 | a Publish that nobody interferes with begins as many attempts as the retry loop makes of sequential internalPublish calls |
| CSharpAbortSequential.SubscribeAlone | csharp/nats.cs:464-485 | a QueueSubscribe alone does to connection and registry what the sequential one does |
| CSharpAbortSequential.TurnAlone | csharp/nats.cs:595-621 | a turn of the reconnect loop alone does what the sequential turn does |
| CSharpAbortSequential.CloseAlone | csharp/nats.cs:251-265 | a Close alone closes as the sequential internalClose does, ends the loop and releases every waiting publisher |
| Retry.RetryExactly | go/nats.go:511-535 | Retry is the one function that attempts until a success, an abort or the end of the delays, waiting the delays in between |
| Retry.UninterruptedRetry | go/nats.go:511-535 | without aborts: min(first success, n + 1) attempts, exactly the delays between them, failure exactly when all fail |
| Retry.GoRetryWithDelays | go/nats.go:511-535 | the Go loop computes Retry |
| Retry.GoPublish | go/nats.go:538-564 | an empty subject is refused, nil delays mean the client's own, otherwise Retry |
| Retry.CSharpPublish | csharp/nats.cs:341-382 | a null, empty or blank subject is refused, null delays mean the client's own, otherwise Retry |
| Retry.JavaPublish | java/src/main/java/com/deluxe/one/nats/NatsAbstractSubject.java:100-125 | no delays is an error; otherwise Retry, where an interrupted sleep uses up its attempt; throws exactly when all attempts failed and silent is off |
| Retry.ThreeLoops | csharp/nats.cs:353-377 | uninterrupted, all three loops compute Retry: the same attempts, the same delays, the same failures |
| JavaTheorems.SafeExactly | java/src/main/java/com/deluxe/one/nats/NatsAbstractSubject.java:127-192 | each step keeps "subscription on the current connection, every connection current or closed" exactly when it is not an open that dials over an existing connection |
| JavaTheorems.SafeRunExactly | java/src/main/java/com/deluxe/one/nats/NatsAbstractSubject.java:127-192 | after any run, it holds exactly when no open in the run dialed over an existing connection; otherwise a connection is lost for good |
| JavaTheorems.BindingInvariant | java/src/main/java/com/deluxe/one/nats/NatsAbstractSubject.java:127-192 | it holds in every run in which opens do not overlap and no guard tick straddles a close, and a closed subject holds no connection |
| JavaTheorems.OneOpenIsSafe | java/src/main/java/com/deluxe/one/nats/NatsAbstractSubject.java:143-167 | after one open every interleaving is safe |
| JavaTheorems.StraddlingGuardLeaks | java/src/main/java/com/deluxe/one/nats/NatsAbstractSubject.java:169-175 | a run with a straddling guard tick and a re-open loses a connection |
| JavaTheorems.GuardRecovers | java/src/main/java/com/deluxe/one/nats/NatsAbstractSubject.java:169-192 | from any state, a guard tick that takes the lock ends on a fresh connection exactly when the dial succeeds, subscribed to it exactly when also listening and accepted, otherwise with nothing; all older connections are closed if none had been lost |
| JavaTheorems.ClosedStaysClosed | java/src/main/java/com/deluxe/one/nats/NatsAbstractSubject.java:127-175 | a disconnected subject stays disconnected in every run without an open exactly when no executor is alive and no open or guard tick is in flight |
| JavaTheorems.OrphansExactly | java/src/main/java/com/deluxe/one/nats/NatsAbstractSubject.java:143-163 | a run leaves an executor behind that nobody shuts down exactly when one of its opens takes the lock on an opened subject |
| JavaTheorems.CloseIsFinal | java/src/main/java/com/deluxe/one/nats/NatsAbstractSubject.java:127-141 | after a run without such an open, a close with nothing in flight leaves the subject disconnected until it is opened again |
| JavaTheorems.OverlappingOpensReconnect | java/src/main/java/com/deluxe/one/nats/NatsAbstractSubject.java:161-175 | two overlapping opens and a close: the closed subject is connected again |
| JavaTheorems.ListenSubscribes | java/src/main/java/com/deluxe/one/nats/NatsAbstractSubject.java:55-64 | listen leaves the subject listening, subscribed exactly if it was or is connected and accepted, on the same connection |
| JavaTheorems.ForgetEnds | java/src/main/java/com/deluxe/one/nats/NatsAbstractSubject.java:80-88 | forget leaves the connection without a subscription, and no guard tick brings one back |
| JavaTheorems.OpenConnects | java/src/main/java/com/deluxe/one/nats/NatsAbstractSubject.java:143-167 | an open that takes the lock leaves the subject open with a guard, connected exactly if the dial succeeds, subscribed exactly if also listening and accepted |
| JavaTheorems.MessageConservation | java/src/main/java/com/deluxe/one/nats/NatsAbstractSubject.java:48-78 | in every run, drained batches in order followed by the queue equal what was there before followed by the payloads that arrived |
| JavaTheorems.DrainTakesAll | java/src/main/java/com/deluxe/one/nats/NatsAbstractSubject.java:70-74 | a drain hands out the whole queue; until the next drain the queue holds what arrived since |
| JavaTheorems.DrainedOnce | java/src/main/java/com/deluxe/one/nats/NatsAbstractSubject.java:70-74 | in every run of a new subject, each arrival no longer queued was handed to exactly one drain, at its place |
| JavaSubject.Drive | java/src/main/java/com/deluxe/one/nats/NatsAbstractSubject.java:48-192 | any sequence of calls on a new subject is a run of the interleaved machine, and afterwards the subscription is on the current connection, every other connection is closed, a closed subject has none and nothing scheduled, and the batches the drains returned followed by the queue are the payloads received |
| JavaSubject.CallMeans | java/src/main/java/com/deluxe/one/nats/NatsAbstractSubject.java:48-192 | what each call leaves when no other thread intervenes: connection, subscription, flags and queue |
| JavaSubject.CallKeeps | java/src/main/java/com/deluxe/one/nats/NatsAbstractSubject.java:48-192 | a call made alone keeps the binding invariant |
| JavaSubject.Subject.Guard | java/src/main/java/com/deluxe/one/nats/NatsAbstractSubject.java:169-192 | the method is a guard check followed, when disconnected, by a guard body, and keeps the invariants |
| JavaSubject.Subject.Open | java/src/main/java/com/deluxe/one/nats/NatsAbstractSubject.java:143-167 | the method is an open check followed, when not open, by an open body, and keeps the invariants |
| JavaSubject.Subject.Close | java/src/main/java/com/deluxe/one/nats/NatsAbstractSubject.java:127-141 | afterwards every connection ever created is closed and nothing is left that could make another without an open |
| JavaSubject.Subject.Subscribe | java/src/main/java/com/deluxe/one/nats/NatsStreamSubject.java:59-86 | afterwards there is a subscription exactly if there was one or the subject is connected and the broker accepts, and it is on the current connection |
| ServiceId.SplitIsUnique | go/nats.go:273-274 | the regular expression matches in at most one way: a dash and a 36-character suffix of uuid shape, so the lazy group is everything before the suffix |
| ServiceId.StripReplaces | go/nats.go:273-274 | dropping that suffix is replacing the match by its group |
| ServiceId.StripNetReplaces | csharp/nats.cs:269 | the same for .NET, where a match may end before a final newline |
| ServiceId.GoServiceIdMeans | go/nats.go:272-282 | getServiceID on every input: the uuid goes if the expression matches, then dashes, then white space, from both ends and all there are; the input is returned if nothing is left |
| ServiceId.CSharpServiceIdMeans | csharp/nats.cs:267-273 | C#: only dashes are trimmed, and a blank result counts as nothing |
| ServiceId.TrimExactly | go/nats.go:275-276 | trimming is determined by what it takes off |
| ServiceId.GoRoundTrip | go/nats.go:272-296 | getServiceID recovers the name from a client id exactly for non-empty one-line names without leading or trailing dash or white space |
| ServiceId.CSharpRoundTrip | csharp/nats.cs:267-273 | C#: exactly for one-line names that are not blank and have no leading or trailing dash |

## Left out

- The NATS and STAN libraries, the network, timers and clocks: replaced by accepted or refused requests, by "the wait ended" steps and by the list of delays begun.
- Logging and log text escaping: no effect on the state.
- The default singletons and the functions that forward to them, including the Go `Subscribe` method: wiring only.
- The programs under `tools/`, the examples and the tests.
- More than one `Connect` on an object, and torn or racy reads: a read of a field is one step, and the Go runtime's abort on a concurrent map write is not modelled.
- Thread 0 of the Go machine is `Connect` followed by the loop it starts; `Connect` resetting empty parameters is not modelled.
- The stored subscription handles in the interleaved Go machine: they are private to the library there; their fate is in the one-call-at-a-time model.
- Interleavings inside one C# call, except for the abort event: handles and registry of C# are modelled one call or loop turn at a time. The machine of the abort event has one call of `Close` and no removals, and a use of `_conn` is one step.
- A queue drain and everything between lock and unlock in Java are single steps; RxJava scheduling and the splitting of `subject:queue` are not modelled.
- The C# overloads that build the options of a subscribe from the client's settings and a durable name: wiring only.
- Go subscription options other than the four in `SubOption`: each overwrites one field in the same way.
- Text encodings: strings are sequences of code points, and invalid UTF-8 is not modelled.
