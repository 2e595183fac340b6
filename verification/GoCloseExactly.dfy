/** Close can return in exactly the states in which it is not hung. */
module GoCloseExactly {
  import opened Base
  import opened GoThreads
  import opened GoThreadsInv
  import opened GoThreadsRuns
  import opened GoTheorems
  import opened GoCloseReturns
  import opened GoSchedules

  /** s' can follow s, and every other Close is where it was. */
  ghost predicate Moves(s: State, s': State, k: Tid) {
    && Alive(s') && Leads(s, s') && s'.sh.chan == s.sh.chan && s'.sh.stopped == s.sh.stopped
    && forall u :: u in s.threads && u != k && s.threads[u].pc.X? ==> u in s'.threads && s'.threads[u] == s.threads[u]
  }

  lemma MovesTrans(s: State, s1: State, s2: State, k: Tid)
    requires Moves(s, s1, k) && Moves(s1, s2, k)
    ensures Moves(s, s2, k)
  {
    hide Alive, Leads;
    Trans(s, s1, s2);
  }

  lemma KeepsMoves(s: State, s': State, k: Tid)
    requires Keeps(s, s')
    ensures Moves(s, s', k)
  {
  }

  /** A listed publisher can be brought to its next wait, or past its last attempt. */
  lemma PublisherRests(s: State, p: Tid) returns (s': State)
    requires Alive(s) && p in s.sh.events && p in s.threads && s.sh.abortLock != Some(p)
    ensures Keeps(s, s') && s'.sh.lock.None? && p in s'.threads && s'.threads[p].job.Publishing?
    ensures s'.threads[p].pc == P(if LastAttempt(s.threads[p]) then PEnd else PWait)
  {
    assert s.threads[p].job.Publishing? by { assert Local(s.sh, p, s.threads[p]); }
    hide Alive, Busy, Leads, LastAttempt, Listed;
    s' := BringToRest(s, p);
    RestingPublisher(s', p);
  }

  lemma RestingPublisher(s: State, p: Tid)
    requires Alive(s) && p in s.sh.events && p in s.threads && s.sh.abortLock != Some(p) && !Busy(s.threads[p])
    ensures s.threads[p].job.Publishing? && s.threads[p].pc == P(if LastAttempt(s.threads[p]) then PEnd else PWait)
  {
    assert Local(s.sh, p, s.threads[p]);
    hide ConnAt, PassAt, SubscriberAt, Global, Reachable;
  }

  // ---------------------------------------------------------------- the abort registry

  ghost predicate Unblocked(s: State) {
    forall p :: p in s.sh.events && p in s.threads ==> !LastAttempt(s.threads[p])
  }

  /** A Close that owns the abort lock can signal every publisher, if each still has a wait ahead. */
  lemma {:induction false} Drain(s: State, k: Tid) returns (s': State)
    requires Alive(s) && k in s.threads && s.threads[k] == Thread(Closing, X(XAborts)) && Unblocked(s)
    ensures Moves(s, s', k) && k in s'.threads && s'.threads[k] == Thread(Closing, X(XCheck)) && s'.sh.abortLock.None?
    decreases |s.sh.events|
  {
    AbortOwner(s, k);
    hide Inv, Reachable, Leads, LastAttempt, StepReconnect, StepClose, StepPublish, StepSubscribe, StepLoop, StepRemove;
    if s.sh.events == {} {
      s' := Act(s, Do(k, Choice(true, 0)));
      return;
    }
    var p :| p in s.sh.events;
    EventsKnown(s, p);
    var s1 := PublisherRests(s, p);
    var s2 := SignalOne(s1, k, p);
    KeepsMoves(s, s1, k);
    MovesTrans(s, s1, s2, k);
    s' := Drain(s2, k);
    MovesTrans(s, s2, s', k);
  }

  lemma EventsKnown(s: State, p: Tid)
    requires Inv(s) && p in s.sh.events
    ensures p in s.threads && s.threads[p].job.Publishing?
  {
    assert Local(s.sh, p, s.threads[p]);
  }

  lemma SignalOne(s: State, k: Tid, p: Tid) returns (s': State)
    requires Alive(s) && k in s.threads && s.threads[k] == Thread(Closing, X(XAborts)) && Unblocked(s)
    requires p in s.sh.events && p in s.threads && s.threads[p].job.Publishing? && s.threads[p].pc == P(PWait)
    ensures Moves(s, s', k) && k in s'.threads && s'.threads[k] == s.threads[k] && Unblocked(s')
    ensures s'.sh.events == s.sh.events - {p}
  {
    hide Inv, Reachable, Leads, LastAttempt;
    s' := Act(s, SendAbort(k, p));
  }

  /** A publisher past its loop can clean up when the abort lock is free. */
  lemma Retire(s: State, p: Tid, k: Tid) returns (s': State)
    requires Alive(s) && s.sh.abortLock.None? && p != k && k in s.threads
    requires p in s.threads && s.threads[p].job.Publishing? && s.threads[p].pc == P(PEnd)
    ensures Moves(s, s', k) && k in s'.threads && s'.threads[k] == s.threads[k]
    ensures s'.sh.events == s.sh.events - {p} && s'.sh.abortLock.None?
  {
    hide Inv, Reachable, Leads, StepReconnect, StepClose, StepSubscribe, StepLoop, StepRemove, StepShutdown;
    var s1 := Act(s, Do(p, Choice(true, 0)));
    s' := Act(s1, Do(p, Choice(true, 0)));
    Trans(s, s1, s');
  }

  /** While the abort lock is free, every publisher on its last attempt can finish and clean up. */
  lemma {:induction false} Clear(s: State, k: Tid) returns (s': State)
    requires Alive(s) && s.sh.abortLock.None? && k in s.threads && s.threads[k] == Thread(Closing, X(XStart))
    ensures Moves(s, s', k) && k in s'.threads && s'.threads[k] == s.threads[k]
    ensures s'.sh.abortLock.None? && Unblocked(s')
    decreases |s.sh.events|
  {
    hide Inv, Reachable, Leads, LastAttempt, Busy;
    if Unblocked(s) {
      Same(s);
      return s;
    }
    var p :| p in s.sh.events && p in s.threads && LastAttempt(s.threads[p]);
    var s1 := PublisherRests(s, p);
    var s2 := Retire(s1, p, k);
    KeepsMoves(s, s1, k);
    MovesTrans(s, s1, s2, k);
    s' := Clear(s2, k);
    MovesTrans(s, s2, s', k);
  }

  /** The abort lock can be freed, unless its owner is a blocked Close. */
  lemma FreeAborts(s: State, k: Tid) returns (s': State)
    requires Alive(s) && k in s.threads && s.threads[k] == Thread(Closing, X(XStart)) && forall h :: !Blocked(s, h)
    ensures Alive(s') && Leads(s, s') && k in s'.threads && s'.threads[k] == s.threads[k] && s'.sh.abortLock.None?
  {
    if s.sh.abortLock.None? {
      Same(s);
      return s;
    }
    var u := s.sh.abortLock.value;
    AbortHolder(s, u);
    hide Alive, Leads, LastAttempt;
    if s.threads[u].pc == X(XAborts) {
      assert Unblocked(s) by { assert !Blocked(s, u); }
      s' := Drain(s, u);
    } else {
      s' := LetGo(s, u, k);
    }
  }

  lemma LetGo(s: State, u: Tid, k: Tid) returns (s': State)
    requires Alive(s) && u in s.threads && k in s.threads && u != k && s.threads[u].job.Publishing?
    requires s.threads[u].pc == P(PRegister) || s.threads[u].pc == P(PDelete)
    ensures Moves(s, s', k) && k in s'.threads && s'.threads[k] == s.threads[k] && s'.sh.abortLock.None?
  {
    hide Inv, Reachable, Leads, StepReconnect, StepClose, StepSubscribe, StepLoop, StepRemove, StepShutdown;
    s' := Act(s, Do(u, Choice(true, 0)));
  }

  lemma AbortHolder(s: State, u: Tid)
    requires Inv(s) && s.sh.abortLock == Some(u)
    ensures u in s.threads
    ensures s.threads[u] == Thread(Closing, X(XAborts)) ||
      (s.threads[u].job.Publishing? && (s.threads[u].pc == P(PRegister) || s.threads[u].pc == P(PDelete)))
  {
    assert Local(s.sh, u, s.threads[u]);
    hide ConnAt, PassAt, PublisherAt, SubscriberAt, Global;
  }

  // ---------------------------------------------------------------- the stop signal

  /** Between stopping the loop and forgetting its channel, the Close that did so is still at work. */
  ghost predicate StopperAtWork(s: State) {
    s.sh.chan && s.sh.stopped ==> exists u :: u in s.threads && s.threads[u] == Thread(Closing, X(XNil))
  }

  lemma StopperStep(s: State, a: Action)
    requires Inv(s) && StopperAtWork(s)
    ensures StopperAtWork(Next(s, a))
  {
    hide Global, Local, StepReconnect, StepClose, StepPublish, StepSubscribe, StepLoop, StepRemove;
    var s' := Next(s, a);
    if a.Do? && Step(s, a).Some? {
      ThreadGood(s.sh, a.tid, s.threads[a.tid], a.choice);
      ChannelKept(s.sh, a.tid, s.threads[a.tid], a.choice);
    }
    if s.sh.chan && s.sh.stopped {
      var u :| u in s.threads && s.threads[u] == Thread(Closing, X(XNil));
      assert s'.sh.chan ==> u in s'.threads && s'.threads[u] == Thread(Closing, X(XNil));
    } else if a.SendStop? && Step(s, a).Some? {
      assert s'.threads[a.tid] == Thread(Closing, X(XNil));
    }
  }

  lemma RedialKeepsChannel(sh: Shared, t: Tid, job: Job, pc: RedialPc, ch: Choice)
    requires StepReconnect(sh, t, job, pc, ch).Some?
    ensures StepReconnect(sh, t, job, pc, ch).value.sh.chan == sh.chan
  {
    hide AfterReconnect;
  }

  lemma PublishKeepsChannel(sh: Shared, t: Tid, job: Job, pc: PublishPc, ch: Choice)
    requires job.Publishing? && StepPublish(sh, t, job, pc, ch).Some?
    ensures StepPublish(sh, t, job, pc, ch).value.sh.chan == sh.chan
  {
  }

  lemma ChannelKept(sh: Shared, t: Tid, th: Thread, ch: Choice)
    requires StepThread(sh, t, th, ch).Some?
    ensures var e := StepThread(sh, t, th, ch).value;
      (e.sh.chan ==> sh.chan) && (th == Thread(Closing, X(XNil)) ==> !e.sh.chan)
  {
    match th.pc {
      case R(r) => hide StepReconnect; RedialKeepsChannel(sh, t, th.job, r, ch);
      case P(p) => hide StepPublish; if th.job.Publishing? { PublishKeepsChannel(sh, t, th.job, p, ch); }
      case _ => hide StepReconnect, StepPublish;
    }
  }

  lemma {:induction false} StopperRun(s: State, acts: seq<Action>)
    requires Inv(s) && StopperAtWork(s)
    ensures StopperAtWork(Run(s, acts))
    decreases |acts|
  {
    hide Inv, StopperAtWork, Step;
    if acts != [] {
      StopperStep(s, acts[0]);
      StepKeeps(s, acts[0]);
      StopperRun(Next(s, acts[0]), acts[1..]);
    }
  }

  lemma Stopper(s: State) returns (u: Tid)
    requires Reachable(s) && s.sh.chan && s.sh.stopped
    ensures u in s.threads && s.threads[u] == Thread(Closing, X(XNil))
  {
    var acts :| s == Run(Init(), acts);
    InitInv();
    StopperRun(Init(), acts);
    u :| u in s.threads && s.threads[u] == Thread(Closing, X(XNil));
  }

  // ---------------------------------------------------------------- from each point of Close to its return

  ghost predicate Returned(s: State, k: Tid) {
    k in s.threads && s.threads[k] == Thread(Closing, Done)
  }

  ghost predicate CanReturn(s: State, k: Tid) {
    exists acts :: Returned(Run(s, acts), k)
  }

  lemma Onward(s: State, s': State, k: Tid)
    requires Leads(s, s') && CanReturn(s', k)
    ensures CanReturn(s, k)
  {
    var acts :| Returned(Run(s', acts), k);
    Trans(s, s', Run(s', acts));
  }

  lemma FromDrop(s: State, k: Tid)
    requires Alive(s) && k in s.threads && s.threads[k].job.Closing? && s.threads[k].pc.C?
    ensures CanReturn(s, k)
  {
    hide Inv, Reachable, Leads, LastAttempt, Busy;
    var s1 := BringToRest(s, k);
    assert Returned(s1, k) by { Rested(s1, k); }
    assert Leads(s, s1);
    Reaches(s, s1, k);
  }

  lemma Reaches(s: State, s': State, k: Tid)
    requires Leads(s, s') && Returned(s', k)
    ensures CanReturn(s, k)
  {
  }

  lemma Rested(s: State, k: Tid)
    requires Inv(s) && k in s.threads && s.threads[k].job.Closing? && !s.threads[k].pc.X? && !Busy(s.threads[k])
    ensures s.threads[k].pc == Done
  {
    assert Local(s.sh, k, s.threads[k]);
    hide ConnAt, PassAt, PublisherAt, SubscriberAt, Global;
  }

  /** The loop can be brought to its wait, where it hears the stop signal. */
  lemma FromSend(s: State, k: Tid)
    requires Alive(s) && k in s.threads && s.threads[k] == Thread(Closing, X(XSend)) && !s.sh.stopped
    ensures CanReturn(s, k)
  {
    assert 0 in s.threads;
    hide Inv, Reachable, Leads, LastAttempt, Busy;
    var s1 := BringToRest(s, 0);
    LoopRests(s1);
    assert k != 0;
    var s2 := Stop(s1, k);
    FromNil(s2, k);
    Trans(s, s1, s2);
    Onward(s, s2, k);
  }

  lemma Stop(s: State, k: Tid) returns (s': State)
    requires Alive(s) && k in s.threads && s.threads[k] == Thread(Closing, X(XSend))
    requires 0 in s.threads && s.threads[0] == Thread(Looping, L(LWait))
    ensures Alive(s') && Leads(s, s') && k in s'.threads && s'.threads[k] == Thread(Closing, X(XNil))
  {
    hide Inv, Reachable, Leads;
    s' := Act(s, SendStop(k));
  }

  lemma FromNil(s: State, k: Tid)
    requires Alive(s) && k in s.threads && s.threads[k] == Thread(Closing, X(XNil))
    ensures CanReturn(s, k)
  {
    hide Inv, Reachable, Leads, LastAttempt;
    var s1 := Act(s, Do(k, Choice(true, 0)));
    FromDrop(s1, k);
    Onward(s, s1, k);
  }

  lemma LoopRests(s: State)
    requires Inv(s) && 0 in s.threads && !Busy(s.threads[0]) && !s.sh.stopped
    ensures s.threads[0] == Thread(Looping, L(LWait))
  {
    assert Local(s.sh, 0, s.threads[0]);
    hide ConnAt, PassAt, PublisherAt, SubscriberAt, Global;
  }

  lemma FromCheck(s: State, k: Tid)
    requires Alive(s) && k in s.threads && s.threads[k] == Thread(Closing, X(XCheck))
    ensures CanReturn(s, k)
  {
    hide Inv, Reachable, Leads, StepReconnect, StepClose, StepPublish, StepSubscribe, StepLoop, StepRemove;
    var yes := Choice(true, 0);
    var s0 := s;
    if s.sh.chan && s.sh.stopped {
      var u := Stopper(s);
      s0 := Act(s, Do(u, yes));
    } else {
      Same(s);
    }
    var s1 := Act(s0, Do(k, yes));
    Trans(s, s0, s1);
    if s0.sh.chan { FromSend(s1, k); } else { FromDrop(s1, k); }
    Onward(s, s1, k);
  }

  lemma TakeAborts(s: State, k: Tid) returns (s': State)
    requires Alive(s) && k in s.threads && s.threads[k] == Thread(Closing, X(XStart))
    requires s.sh.abortLock.None? && Unblocked(s)
    ensures Alive(s') && Leads(s, s') && k in s'.threads && s'.threads[k] == Thread(Closing, X(XAborts))
    ensures Unblocked(s')
  {
    hide Inv, Reachable, Leads;
    s' := Act(s, Do(k, Choice(true, 0)));
  }

  lemma FromStart(s: State, k: Tid)
    requires Alive(s) && k in s.threads && s.threads[k] == Thread(Closing, X(XStart)) && forall h :: !Blocked(s, h)
    ensures CanReturn(s, k)
  {
    hide Alive, Leads, LastAttempt;
    var s0 := FreeAborts(s, k);
    var s1 := Clear(s0, k);
    Trans(s, s0, s1);
    var s2 := TakeAborts(s1, k);
    Trans(s, s1, s2);
    var s3 := Drain(s2, k);
    Trans(s, s2, s3);
    FromCheck(s3, k);
    Onward(s, s3, k);
  }

  /** A call of Close can return, in some continuation, exactly when it is not hung. */
  lemma CloseReturnsExactly(s: State, k: Tid)
    requires Reachable(s) && !s.sh.panicked && k in s.threads && s.threads[k].job.Closing?
    ensures CanReturn(s, k) <==> !Hung(s, k)
  {
    ReachableInv(s);
    if Hung(s, k) {
      forall acts ensures !Returned(Run(s, acts), k) { HungForever(s, acts, k); }
    } else {
      Unhung(s, k);
    }
  }

  lemma Unhung(s: State, k: Tid)
    requires Alive(s) && k in s.threads && s.threads[k].job.Closing? && !Hung(s, k)
    ensures CanReturn(s, k)
  {
    CloserPlaced(s, k);
    hide Alive, CanReturn, LastAttempt;
    match s.threads[k].pc {
      case X(XStart) => FromStart(s, k);
      case X(XAborts) =>
        var s1 := Drain(s, k);
        FromCheck(s1, k);
        Onward(s, s1, k);
      case X(XCheck) => FromCheck(s, k);
      case X(XSend) => FromSend(s, k);
      case X(XNil) => FromNil(s, k);
      case C(_) => FromDrop(s, k);
      case _ =>
        Same(s);
        Reaches(s, s, k);
    }
  }

  lemma CloserPlaced(s: State, k: Tid)
    requires Inv(s) && k in s.threads && s.threads[k].job.Closing?
    ensures s.threads[k].pc.X? || s.threads[k].pc.C? || s.threads[k].pc == Done
  {
    assert Local(s.sh, k, s.threads[k]);
  }
}
