/** Close leaves the Go client quiet, and the one way the Go client can crash. */
module GoClose {
  import opened Base
  import opened GoThreads
  import opened GoThreadsInv
  import opened GoThreadsRuns
  import opened GoTheorems

  /** Neither Publish nor QueueSubscribe is called. */
  predicate QuietAction(a: Action) {
    a.Start? ==> !a.call.CallPublish? && !a.call.CallSubscribe?
  }

  predicate QuietActions(acts: seq<Action>) {
    forall i :: 0 <= i < |acts| ==> QuietAction(acts[i])
  }

  /** Not a subscribe in flight, not a publish that has yet to register. */
  predicate Enrolled(th: Thread) {
    && (th.job.Subscribing? ==> th.pc == Done)
    && (th.job.Publishing? ==> th.pc != P(PStart) && th.pc != P(PRegister))
  }

  ghost predicate NoneInFlight(s: State) {
    forall t :: t in s.threads ==> Enrolled(s.threads[t])
  }

  /** What a Close in progress has achieved at each of its program points. */
  predicate ClosingAt(sh: Shared, pc: Pc) {
    match pc
    case X(XStart) => true
    case X(XAborts) => true
    case X(XNil) => sh.events == {} && sh.stopped
    case X(_) => sh.events == {}
    case C(c) => sh.events == {} && sh.stopped && (c.CUnlock? ==> sh.net.conn.None?)
    case Done => sh.events == {} && sh.stopped && sh.net.conn.None?
    case _ => false
  }

  ghost predicate Calm(s: State, k: Tid) {
    NoneInFlight(s) && k in s.threads && s.threads[k].job.Closing? && ClosingAt(s.sh, s.threads[k].pc)
  }

  /** With no publisher listed and the loop gone, nobody is on the way to a new connection. */
  lemma NobodyDials(sh: Shared, t: Tid, th: Thread)
    requires Local(sh, t, th) && Enrolled(th) && sh.events == {} && sh.stopped
    ensures !th.pc.R?
    ensures th.job.Publishing? ==> th.pc == P(PEnd) || th.pc == P(PDelete) || th.pc == Done
  {
  }

  /** What a Close in progress relies on from any other step. */
  predicate CalmMove(sh: Shared, th: Thread, e: Effect) {
    && Enrolled(e.th)
    && e.sh.stopped == sh.stopped
    && (sh.events == {} ==> e.sh.events == {})
    && (sh.events == {} && sh.stopped ==>
         && (sh.net.conn.None? ==> e.sh.net == sh.net)
         && (th.job.Publishing? ==> e.th.job == th.job))
  }

  lemma RedialCalm(sh: Shared, t: Tid, job: Job, pc: RedialPc, ch: Choice)
    requires Enrolled(Thread(job, R(pc))) && StepReconnect(sh, t, job, pc, ch).Some?
    requires sh.events != {} || !sh.stopped
    ensures CalmMove(sh, Thread(job, R(pc)), StepReconnect(sh, t, job, pc, ch).value)
  {
  }

  lemma DropCalm(sh: Shared, t: Tid, job: Job, pc: DropPc)
    requires Enrolled(Thread(job, C(pc))) && StepClose(sh, t, job, pc).Some?
    requires pc.CClear? ==> sh.net.conn.Some?
    ensures CalmMove(sh, Thread(job, C(pc)), StepClose(sh, t, job, pc).value)
  {
  }

  lemma PublishCalm(sh: Shared, t: Tid, job: Job, pc: PublishPc, ch: Choice)
    requires job.Publishing? && Enrolled(Thread(job, P(pc))) && StepPublish(sh, t, job, pc, ch).Some?
    requires sh.events == {} && sh.stopped ==> pc.PEnd? || pc.PDelete?
    ensures CalmMove(sh, Thread(job, P(pc)), StepPublish(sh, t, job, pc, ch).value)
  {
  }

  /** One thread's step, seen from a Close in progress. */
  lemma ThreadCalm(sh: Shared, t: Tid, th: Thread, ch: Choice)
    requires Global(sh) && Local(sh, t, th) && Enrolled(th) && StepThread(sh, t, th, ch).Some?
    ensures CalmMove(sh, th, StepThread(sh, t, th, ch).value)
  {
    if sh.events == {} && sh.stopped { NobodyDials(sh, t, th); }
    ClearHasConnection(sh, t, th);
    hide Global, Local, StepReconnect, StepClose, StepPublish;
    match th.pc {
      case R(r) => RedialCalm(sh, t, th.job, r, ch);
      case C(c) => DropCalm(sh, t, th.job, c);
      case P(p) => if th.job.Publishing? { PublishCalm(sh, t, th.job, p, ch); }
      case _ =>
    }
  }

  lemma ClearHasConnection(sh: Shared, t: Tid, th: Thread)
    requires Local(sh, t, th)
    ensures th.pc == C(CClear) ==> sh.net.conn.Some?
  {
  }

  /** The step of the closing thread itself. */
  lemma CloserCalm(sh: Shared, k: Tid, th: Thread, ch: Choice)
    requires Global(sh) && Local(sh, k, th) && th.job.Closing? && ClosingAt(sh, th.pc)
    requires StepThread(sh, k, th, ch).Some?
    ensures var Effect(sh', th') := StepThread(sh, k, th, ch).value;
      th'.job.Closing? && ClosingAt(sh', th'.pc)
  {
    hide PublisherAt, PassAt, SubscriberAt, StepReconnect, PassesOk, Settled;
  }

  /** While the closing thread is at CUnlock it owns the lock, so another thread's step leaves the
      missing connection alone; after that nobody dials. */
  lemma CalmStep(s: State, a: Action, k: Tid)
    requires Inv(s) && Calm(s, k) && QuietAction(a)
    ensures Calm(Next(s, a), k)
  {
    hide Global, Local, StepThread;
    if a.Do? && Step(s, a).Some? {
      var th := s.threads[a.tid];
      ThreadCalm(s.sh, a.tid, th, a.choice);
      if a.tid == k { CloserCalm(s.sh, k, th, a.choice); }
    }
  }

  lemma {:induction false} CalmRun(s: State, acts: seq<Action>, k: Tid)
    requires Inv(s) && Calm(s, k) && QuietActions(acts)
    ensures Inv(Run(s, acts)) && Calm(Run(s, acts), k)
    decreases |acts|
  {
    hide Inv, Calm, Step;
    if acts != [] {
      CalmStep(s, acts[0], k);
      StepKeeps(s, acts[0]);
      CalmRun(Next(s, acts[0]), acts[1..], k);
    }
  }

  /** Once Close has returned: no step dials, changes the (absent) connection or attempts a publish. */
  ghost predicate Frozen(s: State, s': State) {
    && s'.sh.net == s.sh.net
    && forall t :: t in s.threads && s.threads[t].job.Publishing? ==>
         t in s'.threads && s'.threads[t].job == s.threads[t].job
  }

  lemma FrozenStep(s: State, a: Action, k: Tid)
    requires Inv(s) && Calm(s, k) && s.threads[k].pc == Done && QuietAction(a)
    ensures Frozen(s, Next(s, a)) && Next(s, a).threads[k] == s.threads[k]
  {
    hide Global, Local, StepReconnect, StepClose, StepPublish, StepSubscribe, StepLoop, StepRemove, StepShutdown;
    if a.Do? && Step(s, a).Some? { ThreadCalm(s.sh, a.tid, s.threads[a.tid], a.choice); }
    if a.SendStop? { LocalPlace(s, 0); }
  }

  lemma {:induction false} FrozenRun(s: State, acts: seq<Action>, k: Tid)
    requires Inv(s) && Calm(s, k) && s.threads[k].pc == Done && QuietActions(acts)
    ensures Frozen(s, Run(s, acts))
    decreases |acts|
  {
    hide Inv, Step;
    if acts != [] {
      FrozenStep(s, acts[0], k);
      CalmStep(s, acts[0], k);
      StepKeeps(s, acts[0]);
      FrozenRun(Next(s, acts[0]), acts[1..], k);
    }
  }

  /** If Close is called by k while no subscribe is in flight and every publish has registered, no new
      publish or subscribe is called meanwhile, and Close returns, then there is no connection,
      the background loop has returned, every publish has returned or was signalled and is on its
      way out, and in every continuation without a new publish or subscribe it stays so: nothing is
      dialed, and no publish makes another attempt. */
  lemma CloseQuiescence(s: State, acts: seq<Action>, k: Tid, later: seq<Action>)
    requires Reachable(s) && k in s.threads && s.threads[k] == Thread(Closing, X(XStart))
    requires NoneInFlight(s) && QuietActions(acts) && QuietActions(later)
    requires k in Run(s, acts).threads && Run(s, acts).threads[k].pc == Done
    ensures var s1 := Run(s, acts);
      && s1.sh.net.conn.None?
      && 0 in s1.threads && s1.threads[0] == Thread(Looping, Done)
      && (forall t :: t in s1.threads && s1.threads[t].job.Publishing? ==>
           s1.threads[t].pc == Done ||
           (s1.threads[t].job.signalled && (s1.threads[t].pc == P(PEnd) || s1.threads[t].pc == P(PDelete))))
      && Frozen(s1, Run(s1, later))
  {
    ReachableInv(s);
    CalmRun(s, acts, k);
    var s1 := Run(s, acts);
    FrozenRun(s1, later, k);
    hide Global;
    assert Local(s1.sh, 0, s1.threads[0]);
    forall t | t in s1.threads && s1.threads[t].job.Publishing?
      ensures s1.threads[t].pc == Done ||
           (s1.threads[t].job.signalled && (s1.threads[t].pc == P(PEnd) || s1.threads[t].pc == P(PDelete)))
    {
      assert Local(s1.sh, t, s1.threads[t]);
      NobodyDials(s1.sh, t, s1.threads[t]);
    }
  }

  // ---------------------------------------------------------------- the nil connection

  /** The two points that call a method of m.conn without the lock. */
  predicate CallsUnlocked(th: Thread) {
    (th.job.Publishing? && th.pc == P(PSend)) || (th.job.Subscribing? && th.pc == S(SSend))
  }

  lemma ThreadPanics(sh: Shared, t: Tid, th: Thread, ch: Choice)
    requires StepThread(sh, t, th, ch).Some? && !sh.panicked
    requires th.pc.R? && th.pc.r.RNestedSend? ==> sh.net.conn.Some?
    ensures StepThread(sh, t, th, ch).value.sh.panicked <==> CallsUnlocked(th) && sh.net.conn.None?
  {
    if th.pc.R? { RedialPanics(sh, t, th.job, th.pc.r, ch); }
    hide StepReconnect;
  }

  lemma RedialPanics(sh: Shared, t: Tid, job: Job, pc: RedialPc, ch: Choice)
    requires StepReconnect(sh, t, job, pc, ch).Some? && !sh.panicked
    requires pc.RNestedSend? ==> sh.net.conn.Some?
    ensures !StepReconnect(sh, t, job, pc, ch).value.sh.panicked
  {
  }

  /** A method is called on a nil connection in exactly one situation: reconnect has returned to a
      publish or a QueueSubscribe, and the connection has been dropped before the call. The
      resubscription pass is never hit. */
  lemma PanicExactly(s: State, a: Action)
    requires Reachable(s) && !s.sh.panicked
    ensures Next(s, a).sh.panicked <==>
      a.Do? && a.tid in s.threads && CallsUnlocked(s.threads[a.tid]) && s.sh.net.conn.None?
  {
    if a.Do? && a.tid in s.threads {
      LockDiscipline(s, a.tid);
      if Step(s, a).Some? { ThreadPanics(s.sh, a.tid, s.threads[a.tid], a.choice); }
    }
    hide StepReconnect, StepClose, StepLoop, StepRemove, StepShutdown;
  }

  // ---------------------------------------------------------------- runs that never crash

  /** Every call between its reconnect and its use of the connection finds one. */
  ghost predicate Ready(s: State) {
    forall t :: t in s.threads && CallsUnlocked(s.threads[t]) ==> s.sh.net.conn.Some?
  }

  /** The action drops the connection while some call is about to use it. */
  ghost predicate Undercuts(s: State, a: Action) {
    && s.sh.net.conn.Some? && Next(s, a).sh.net.conn.None?
    && exists t :: t in Next(s, a).threads && CallsUnlocked(Next(s, a).threads[t])
  }

  ghost predicate Undercut(s: State, acts: seq<Action>)
    decreases |acts|
  {
    acts != [] && (Undercuts(s, acts[0]) || Undercut(Next(s, acts[0]), acts[1..]))
  }

  lemma RedialArrives(sh: Shared, t: Tid, job: Job, pc: RedialPc, ch: Choice)
    requires Local(sh, t, Thread(job, R(pc))) && StepReconnect(sh, t, job, pc, ch).Some?
    ensures var e := StepReconnect(sh, t, job, pc, ch).value; CallsUnlocked(e.th) ==> e.sh.net.conn.Some?
  {
    if pc.RUnlock? { assert !pc.err ==> sh.net.conn.Some?; }
    hide Local;
  }

  /** A call reaches its use of the connection only by finding one. */
  lemma ArrivesConnected(sh: Shared, t: Tid, th: Thread, ch: Choice)
    requires Global(sh) && Local(sh, t, th) && StepThread(sh, t, th, ch).Some? && !CallsUnlocked(th)
    ensures var e := StepThread(sh, t, th, ch).value;
      CallsUnlocked(e.th) ==> e.sh.net.conn.Some?
  {
    match th.pc {
      case R(r) => hide StepReconnect, Local; RedialArrives(sh, t, th.job, r, ch);
      case _ => hide StepReconnect, Local;
    }
  }

  lemma ReadyStep(s: State, a: Action)
    requires Reachable(s) && Ready(s) && !s.sh.panicked && !Undercuts(s, a)
    ensures Ready(Next(s, a)) && !Next(s, a).sh.panicked
  {
    ReachableInv(s);
    PanicExactly(s, a);
    hide Reachable, Inv, StepThread;
    if a.Do? && Step(s, a).Some? && !CallsUnlocked(s.threads[a.tid]) {
      ArrivesConnected(s.sh, a.tid, s.threads[a.tid], a.choice) by { LocalOf(s, a.tid); }
    }
  }

  lemma LocalOf(s: State, t: Tid)
    requires Inv(s) && t in s.threads
    ensures Global(s.sh) && Local(s.sh, t, s.threads[t])
  {
  }

  /** Over whole runs: the process crashes only if some step drops the connection while a publish or a
      subscribe stands between its reconnect and its use of it. */
  lemma {:induction false} NoUndercutNoPanic(s: State, acts: seq<Action>)
    requires Reachable(s) && Ready(s) && !s.sh.panicked && !Undercut(s, acts)
    ensures !Run(s, acts).sh.panicked
    decreases |acts|
  {
    hide Reachable, Ready, Undercuts, Next;
    if acts != [] {
      ReadyStep(s, acts[0]);
      Extend(s, acts[0]);
      NoUndercutNoPanic(Next(s, acts[0]), acts[1..]);
    }
  }
}
