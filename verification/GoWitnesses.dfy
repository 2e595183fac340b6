/** Runs that show what can happen to the Go client. */
module GoWitnesses {
  import opened Base
  import opened GoThreads
  import opened GoThreadsInv
  import opened GoThreadsRuns
  import opened GoTheorems
  import opened GoClose
  import opened GoCloseReturns

  const YES := Choice(true, 0)
  const NO := Choice(false, 0)
  const ONLINE :=
    Shared(Net(Some(0), 1, 1, {}), None, None, {}, true, false, {}, [], [Replay(0, {}, {}, {}, {})], false)
  const OFFLINE := Init().sh
  const WAITING := map[0 := Thread(Looping, L(LWait))]
  const CLOSING := Thread(Closing, X(XStart))

  lemma One(s: State, a: Action, pc: Pc) returns (s': State)
    requires Reachable(s) && Step(s, a).Some?
    requires a.tid in Next(s, a).threads && Next(s, a).threads[a.tid].pc == pc
    ensures Reachable(s') && s' == Next(s, a)
  {
    s' := Next(s, a);
    Extend(s, a);
  }

  lemma InitReachable()
    ensures Reachable(Init())
  {
    assert Run(Init(), []) == Init();
  }

  /** Connect against a broker that accepts has dialed and is about to replay an empty registry. */
  lemma Dialed()
    ensures Reachable(State(ONLINE.(lock := Some(0), replays := []), map[0 := Thread(Connecting, R(RReplay({}, {})))]))
  {
    hide Reachable;
    InitReachable();
    var s := Init();
    s := One(s, Do(0, YES), R(RLock));
    s := One(s, Do(0, YES), R(RSlow));
    s := One(s, Do(0, YES), R(RDial));
    s := One(s, Do(0, YES), R(RSet(0)));
    s := One(s, Do(0, YES), R(RReplay({}, {})));
    assert s == State(ONLINE.(lock := Some(0), replays := []), map[0 := Thread(Connecting, R(RReplay({}, {})))]);
  }

  lemma Online()
    ensures Reachable(State(ONLINE, WAITING))
  {
    hide Reachable;
    Dialed();
    var s := State(ONLINE.(lock := Some(0), replays := []), map[0 := Thread(Connecting, R(RReplay({}, {})))]);
    assert Tokens([]) == {};
    s := One(s, Do(0, NO), R(RUnlock(false)));
    s := One(s, Do(0, YES), L(LWait));
    assert s == State(ONLINE, WAITING);
  }

  /** Connect against a broker that is away. */
  lemma Offline()
    ensures Reachable(State(OFFLINE, WAITING))
  {
    hide Reachable;
    InitReachable();
    var s := Init();
    s := One(s, Do(0, YES), R(RLock));
    s := One(s, Do(0, YES), R(RSlow));
    s := One(s, Do(0, YES), R(RDial));
    s := One(s, Do(0, NO), R(RUnlock(true)));
    s := One(s, Do(0, YES), L(LWait));
    assert s == State(OFFLINE, WAITING);
  }

  // ---------------------------------------------------------------- the nil connection

  /** Publisher 1 has registered. */
  lemma Registered(sh: Shared, n: nat)
    requires Reachable(State(sh, WAITING)) && sh.abortLock.None? && sh.events == {} && !sh.panicked
    ensures Reachable(State(sh.(events := {1}), WAITING[1 := Thread(Publishing(n, [], false), R(RFast))]))
  {
    hide Reachable, StepReconnect, StepClose, StepSubscribe, StepLoop, StepRemove, StepShutdown;
    var s := State(sh, WAITING);
    s := One(s, Start(1, CallPublish(n)), P(PStart));
    s := One(s, Do(1, YES), P(PRegister));
    s := One(s, Do(1, YES), R(RFast));
    assert s == State(sh.(events := {1}), WAITING[1 := Thread(Publishing(n, [], false), R(RFast))]);
  }

  lemma AboutToSend()
    ensures Reachable(State(ONLINE.(events := {1}), WAITING[1 := Thread(Publishing(0, [], false), P(PSend))]))
  {
    hide Reachable;
    Online();
    Registered(ONLINE, 0);
    var s := State(ONLINE.(events := {1}), WAITING[1 := Thread(Publishing(0, [], false), R(RFast))]);
    s := One(s, Do(1, YES), P(PSend));
    assert s == State(ONLINE.(events := {1}), WAITING[1 := Thread(Publishing(0, [], false), P(PSend))]);
  }

  lemma Dropped()
    ensures Reachable(State(ONLINE.(events := {1}, lock := Some(2), net := Net(None, 1, 1, {0})),
      WAITING[1 := Thread(Publishing(0, [], false), P(PSend))][2 := Thread(Losing, C(CUnlock))]))
  {
    hide Reachable, StepReconnect, StepPublish, StepSubscribe, StepLoop, StepRemove, StepShutdown;
    AboutToSend();
    var s := State(ONLINE.(events := {1}), WAITING[1 := Thread(Publishing(0, [], false), P(PSend))]);
    s := One(s, Start(2, ConnectionLost), C(CLock));
    s := One(s, Do(2, YES), C(CConn));
    s := One(s, Do(2, YES), C(CClear));
    s := One(s, Do(2, YES), C(CUnlock));
    assert s == State(ONLINE.(events := {1}, lock := Some(2), net := Net(None, 1, 1, {0})),
      WAITING[1 := Thread(Publishing(0, [], false), P(PSend))][2 := Thread(Losing, C(CUnlock))]);
  }

  /** A publisher sees the connection, the lost-connection callback drops it, the publisher calls nil. */
  lemma PanicCanHappen()
    ensures exists s :: Reachable(s) && s.sh.panicked
  {
    hide Reachable;
    Dropped();
    var s := State(ONLINE.(events := {1}, lock := Some(2), net := Net(None, 1, 1, {0})),
      WAITING[1 := Thread(Publishing(0, [], false), P(PSend))][2 := Thread(Losing, C(CUnlock))]);
    s := One(s, Do(1, YES), P(PSend));
  }

  // ---------------------------------------------------------------- a Close that hangs

  /** A publish with no delays has made no attempt yet; a Close that takes the abort lock now hangs. */
  lemma LastAttemptHangs()
    ensures exists s :: Reachable(s) && Hung(s, 2) && s.threads.Keys == {0, 1, 2} &&
              s.threads[1] == Thread(Publishing(0, [], false), P(PSend))
  {
    hide Reachable;
    AboutToSend();
    var s := State(ONLINE.(events := {1}), WAITING[1 := Thread(Publishing(0, [], false), P(PSend))]);
    s := One(s, Start(2, CallClose), X(XStart));
    s := One(s, Do(2, YES), X(XAborts));
    assert 1 in s.sh.events && LastAttempt(s.threads[1]);
    assert Hung(s, 2);
  }

  /** Close k finds no publisher. */
  lemma Checks(threads: map<Tid, Thread>, k: Tid)
    requires Reachable(State(OFFLINE, threads)) && k !in threads
    ensures Reachable(State(OFFLINE, threads[k := Thread(Closing, X(XCheck))]))
  {
    hide Reachable, StepReconnect, StepClose, StepPublish, StepSubscribe, StepLoop, StepRemove;
    var s := State(OFFLINE, threads);
    s := One(s, Start(k, CallClose), X(XStart));
    s := One(s, Do(k, YES), X(XAborts));
    s := One(s, Do(k, YES), X(XCheck));
    assert s == State(OFFLINE, threads[k := Thread(Closing, X(XCheck))]);
  }

  lemma FirstSends()
    ensures Reachable(State(OFFLINE, WAITING[1 := Thread(Closing, X(XSend))]))
  {
    hide Reachable;
    Offline();
    Checks(WAITING, 1);
    var s := State(OFFLINE, WAITING[1 := Thread(Closing, X(XCheck))]);
    s := One(s, Do(1, YES), X(XSend));
    assert s == State(OFFLINE, WAITING[1 := Thread(Closing, X(XSend))]);
  }

  /** Two overlapping calls of Close, no publisher anywhere: the second to stop the loop hangs. */
  lemma SecondCloseHangs()
    ensures exists s :: Reachable(s) && Hung(s, 2) && s.threads.Keys == {0, 1, 2} && s.sh.events == {} &&
              s.threads[1] == Thread(Closing, X(XNil))
  {
    hide Reachable;
    FirstSends();
    Checks(WAITING[1 := Thread(Closing, X(XSend))], 2);
    var s := State(OFFLINE, WAITING[1 := Thread(Closing, X(XSend))][2 := Thread(Closing, X(XCheck))]);
    s := One(s, Do(2, YES), X(XSend));
    s := One(s, SendStop(1), X(XNil));
    assert Hung(s, 2);
  }

  // ---------------------------------------------------------------- a Close that returns

  lemma Refused()
    ensures Reachable(State(OFFLINE.(lock := Some(1), events := {1}),
                            WAITING[1 := Thread(Publishing(1, [], false), R(RDial))]))
  {
    hide Reachable;
    Offline();
    Registered(OFFLINE, 1);
    var s := State(OFFLINE.(events := {1}), WAITING[1 := Thread(Publishing(1, [], false), R(RFast))]);
    s := One(s, Do(1, YES), R(RLock));
    s := One(s, Do(1, YES), R(RSlow));
    s := One(s, Do(1, YES), R(RDial));
    assert s == State(OFFLINE.(lock := Some(1), events := {1}),
                      WAITING[1 := Thread(Publishing(1, [], false), R(RDial))]);
  }

  /** A publisher waits for its next attempt. */
  function Pausing(): State {
    State(OFFLINE.(events := {1}), WAITING[1 := Thread(Publishing(1, [Attempt(None, false)], false), P(PWait))])
  }

  /** Then Close is called. */
  function Interrupted(): State {
    Pausing().(threads := Pausing().threads[2 := CLOSING])
  }

  lemma PausingReachable()
    ensures Reachable(Pausing())
  {
    hide Reachable, StepClose, StepSubscribe, StepLoop, StepRemove, StepShutdown;
    Refused();
    var s := State(OFFLINE.(lock := Some(1), events := {1}), WAITING[1 := Thread(Publishing(1, [], false), R(RDial))]);
    s := One(s, Do(1, NO), R(RUnlock(true)));
    s := One(s, Do(1, YES), P(PNext));
    Pause(s);
  }

  lemma Pause(s: State)
    requires Reachable(s) && s.sh == OFFLINE.(events := {1})
    requires s.threads == WAITING[1 := Thread(Publishing(1, [] + [Attempt(None, false)], false), P(PNext))]
    ensures Reachable(Pausing())
  {
    hide Reachable, StepReconnect, StepClose, StepSubscribe, StepLoop, StepRemove, StepShutdown;
    assert [] + [Attempt(None, false)] == [Attempt(None, false)];
    var s' := One(s, Do(1, YES), P(PWait));
    assert s' == Pausing();
  }

  /** s' can follow s without a new publish or subscribe. */
  ghost predicate Quietly(s: State, s': State) {
    exists acts :: QuietActions(acts) && Run(s, acts) == s'
  }

  lemma QuietOne(s0: State, s: State, a: Action, pc: Pc) returns (s': State)
    requires Quietly(s0, s) && QuietAction(a) && Step(s, a).Some?
    requires a.tid in Next(s, a).threads && Next(s, a).threads[a.tid].pc == pc
    ensures Quietly(s0, s') && s' == Next(s, a)
  {
    hide Next;
    s' := Next(s, a);
    var acts :| QuietActions(acts) && Run(s0, acts) == s;
    RunAppend(s0, acts, [a]);
    assert Run(s, [a]) == Run(s', [a][1..]) == s';
    assert QuietActions(acts + [a]);
  }

  /** The publisher has been signalled. */
  function Signalled(): State {
    State(OFFLINE,
          WAITING[1 := Thread(Publishing(1, [Attempt(None, false)], true), P(PEnd))][2 := Thread(Closing, X(XCheck))])
  }

  lemma Signalling()
    ensures Quietly(Interrupted(), Signalled())
  {
    assert Quietly(Interrupted(), Interrupted()) by { assert Run(Interrupted(), []) == Interrupted(); }
    hide Quietly;
    var s := Interrupted();
    s := QuietOne(Interrupted(), s, Do(2, YES), X(XAborts));
    s := QuietOne(Interrupted(), s, SendAbort(2, 1), X(XAborts));
    s := QuietOne(Interrupted(), s, Do(2, YES), X(XCheck));
    assert s == Signalled();
  }

  lemma Stopping() returns (s: State)
    ensures Quietly(Interrupted(), s) && s == State(OFFLINE.(stopped := true, chan := false),
      Signalled().threads[0 := Thread(Looping, Done)][2 := Thread(Closing, C(CLock))])
  {
    Signalling();
    hide Quietly, Interrupted;
    s := QuietOne(Interrupted(), Signalled(), Do(2, YES), X(XSend));
    s := QuietOne(Interrupted(), s, SendStop(2), X(XNil));
    s := QuietOne(Interrupted(), s, Do(2, YES), C(CLock));
  }

  /** A Close with a publisher to signal, nobody else calling anything, that returns: what CloseQuiescence
      asks of a run can be met. */
  lemma CloseCanReturn() returns (acts: seq<Action>)
    ensures Reachable(Interrupted()) && NoneInFlight(Interrupted()) && 1 in Interrupted().sh.events
    ensures Interrupted().threads[2] == Thread(Closing, X(XStart)) && QuietActions(acts)
    ensures 2 in Run(Interrupted(), acts).threads && Run(Interrupted(), acts).threads[2] == Thread(Closing, Done)
  {
    PausingReachable();
    Extend(Pausing(), Start(2, CallClose));
    var s := Stopping();
    s := AtLast(s);
    acts :| QuietActions(acts) && Run(Interrupted(), acts) == s;
  }

  lemma AtLast(from: State) returns (s: State)
    requires Quietly(Interrupted(), from) && from.sh == OFFLINE.(stopped := true, chan := false)
    requires 2 in from.threads && from.threads[2] == Thread(Closing, C(CLock))
    ensures Quietly(Interrupted(), s) && 2 in s.threads && s.threads[2] == Thread(Closing, Done)
  {
    hide Quietly, Interrupted;
    s := QuietOne(Interrupted(), from, Do(2, YES), C(CConn));
    s := QuietOne(Interrupted(), s, Do(2, YES), C(CUnlock));
    s := QuietOne(Interrupted(), s, Do(2, YES), Done);
  }
}
