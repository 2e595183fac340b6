/** What setting the abort event achieves, and what it does not. */
module CSharpAbortTheorems {
  import opened Base
  import opened CSharpAbort

  // ---------------------------------------------------------------- invariant

  /** Which program points a call can be at. */
  predicate Placed(th: Thread) {
    match th.pc
    case Fast => !th.job.Closing?
    case Enter => !th.job.Closing?
    case Dial => !th.job.Closing?
    case Send => th.job.Publishing? || th.job == Subscribing(false)
    case Keep => th.job.Subscribing?
    case Drop => th.job != Subscribing(false)
    case Again => th.job.Publishing?
    case Waiting => th.job.Publishing? && th.job.begun <= th.job.delays
    case Idle => th.job.Looping?
    case Sleeping => th.job.Looping?
    case Check => th.job.Looping?
    case Ping => th.job.Looping?
    case SetAbort => th.job.Closing?
    case StopLoop => th.job.Closing?
    case Join => th.job.Closing?
    case Done => true
  }

  /** What holds of thread t while the others run; thread 0 is the loop. */
  predicate Local(sh: Shared, t: Tid, th: Thread) {
    && Placed(th)
    && (th.pc == Dial <==> sh.lock == Some(t))
    && (sh.abort ==> th.pc != Waiting)
    && (th.job.Looping? <==> t == 0)
    && (th.job.Looping? ==> (th.pc == Done <==> sh.ended))
    && (th.job.Closing? <==> sh.called == Some(t))
    && (th.job.Closing? ==> (th.pc == Done <==> sh.returned) && (th.pc == Drop || th.pc == Done ==> sh.ended))
  }

  /** Once Close has returned, the event is still set only if nothing was dialed since. */
  predicate Global(sh: Shared) {
    && (sh.lock.Some? ==> !sh.conn)
    && (sh.called.None? ==> !sh.returned)
    && (sh.returned ==> sh.ended)
    && (sh.returned && sh.abort ==> !sh.conn && sh.lock.None?)
  }

  ghost predicate Inv(s: State) {
    && Global(s.sh)
    && 0 in s.threads
    && (s.sh.lock.Some? ==> s.sh.lock.value in s.threads)
    && (s.sh.called.Some? ==> s.sh.called.value in s.threads)
    && forall t :: t in s.threads ==> Local(s.sh, t, s.threads[t])
  }

  /** What a step of thread t may do to the shared state. */
  predicate Guarantee(sh: Shared, sh': Shared, t: Tid) {
    && (sh'.abort ==> sh.abort) && sh'.called == sh.called
    && (sh'.lock == sh.lock || (sh.lock.None? && sh'.lock == Some(t)) || (sh.lock == Some(t) && sh'.lock.None?))
    && (sh'.ended == sh.ended || (t == 0 && sh'.ended))
    && (sh'.returned == sh.returned || sh.called == Some(t))
  }

  predicate Good(sh: Shared, t: Tid, e: Option<Effect>) {
    e.Some? ==> Global(e.value.sh) && Local(e.value.sh, t, e.value.th) && Guarantee(sh, e.value.sh, t)
  }

  lemma RedialGood(sh: Shared, t: Tid, job: Job, pc: Pc, ok: bool)
    requires pc == Fast || pc == Enter || pc == Dial
    requires Global(sh) && Local(sh, t, Thread(job, pc))
    ensures Good(sh, t, StepThread(sh, t, Thread(job, pc), ok))
  {
  }

  lemma UseGood(sh: Shared, t: Tid, job: Job, pc: Pc, ok: bool)
    requires pc == Send || pc == Keep || pc == Drop
    requires Global(sh) && Local(sh, t, Thread(job, pc))
    ensures Good(sh, t, StepThread(sh, t, Thread(job, pc), ok))
  {
  }

  lemma WaitGood(sh: Shared, t: Tid, job: Job, pc: Pc, ok: bool)
    requires pc == Again || pc == Waiting || pc == Idle || pc == Sleeping || pc == Check || pc == Ping || pc == Join
    requires Global(sh) && Local(sh, t, Thread(job, pc))
    ensures Good(sh, t, StepThread(sh, t, Thread(job, pc), ok))
  {
  }

  lemma ThreadStep(sh: Shared, t: Tid, th: Thread, ok: bool)
    requires Global(sh) && Local(sh, t, th) && StepThread(sh, t, th, ok).Some?
    ensures Good(sh, t, StepThread(sh, t, th, ok))
  {
    hide Global, Local, Good;
    if th.pc == Fast || th.pc == Enter || th.pc == Dial { RedialGood(sh, t, th.job, th.pc, ok); }
    else if th.pc == Send || th.pc == Keep || th.pc == Drop { UseGood(sh, t, th.job, th.pc, ok); }
    else { WaitGood(sh, t, th.job, th.pc, ok); }
  }

  lemma Stable(sh: Shared, sh': Shared, t: Tid, u: Tid, th: Thread)
    requires Guarantee(sh, sh', t) && Local(sh, u, th) && u != t
    ensures Local(sh', u, th)
  {
  }

  lemma SetKeeps(s: State, t: Tid)
    requires Inv(s) && t in s.threads && s.threads[t].pc == SetAbort
    ensures Inv(DoStep(s, t, true))
  {
    assert Local(s.sh, t, s.threads[t]);
    var s' := DoStep(s, t, true);
    forall u | u in s'.threads ensures Local(s'.sh, u, s'.threads[u]) {
      assert Local(s.sh, u, s.threads[u]);
    }
  }

  lemma StopKeeps(s: State, t: Tid)
    requires Inv(s) && t in s.threads && s.threads[t].pc == StopLoop
    ensures Inv(DoStep(s, t, true))
  {
    assert Local(s.sh, t, s.threads[t]) && Local(s.sh, 0, s.threads[0]);
    var s' := DoStep(s, t, true);
    forall u | u in s'.threads ensures Local(s'.sh, u, s'.threads[u]) {
      assert Local(s.sh, u, s.threads[u]);
    }
  }

  lemma DoKeeps(s: State, t: Tid, ok: bool)
    requires Inv(s) && t in s.threads && StepThread(s.sh, t, s.threads[t], ok).Some?
    ensures var e := StepThread(s.sh, t, s.threads[t], ok).value; Inv(State(e.sh, s.threads[t := e.th]))
  {
    hide Global, Local, StepThread;
    var e := StepThread(s.sh, t, s.threads[t], ok).value;
    ThreadStep(s.sh, t, s.threads[t], ok);
    var s' := State(e.sh, s.threads[t := e.th]);
    forall u | u in s'.threads ensures Local(s'.sh, u, s'.threads[u]) {
      if u != t { Stable(s.sh, s'.sh, t, u, s.threads[u]); }
    }
  }

  lemma StartKeeps(s: State, t: Tid, call: Call)
    requires Inv(s)
    ensures Inv(StartCall(s, t, call))
  {
    var s' := StartCall(s, t, call);
    forall u | u in s'.threads ensures Local(s'.sh, u, s'.threads[u]) {
      assert u in s.threads ==> Local(s.sh, u, s.threads[u]);
    }
  }

  lemma StepKeeps(s: State, a: Action)
    requires Inv(s)
    ensures Inv(Next(s, a))
  {
    match a
    case Start(t, call) => StartKeeps(s, t, call);
    case Do(t, ok) =>
      hide Inv, StepThread;
      if t in s.threads {
        if s.threads[t].pc == SetAbort { SetKeeps(s, t); }
        else if s.threads[t].pc == StopLoop { StopKeeps(s, t); }
        else if StepThread(s.sh, t, s.threads[t], ok).Some? { DoKeeps(s, t, ok); }
      }
  }

  lemma InitInv(conn: bool)
    ensures Inv(Init(conn))
  {
  }

  lemma {:induction false} RunKeeps(s: State, acts: seq<Action>)
    requires Inv(s)
    ensures Inv(Run(s, acts))
    decreases |acts|
  {
    hide Inv, Next;
    if acts != [] {
      StepKeeps(s, acts[0]);
      RunKeeps(Next(s, acts[0]), acts[1..]);
    }
  }

  ghost predicate Reachable(s: State) {
    exists conn, acts :: s == Run(Init(conn), acts)
  }

  lemma ReachableInv(s: State)
    requires Reachable(s)
    ensures Inv(s)
  {
    hide Inv, Init;
    var conn, acts :| s == Run(Init(conn), acts);
    InitInv(conn);
    RunKeeps(Init(conn), acts);
  }

  // ---------------------------------------------------------------- after Close has returned

  /** No new call. */
  predicate Quiet(acts: seq<Action>) {
    forall i :: 0 <= i < |acts| ==> acts[i].Do?
  }

  /** A publish that has not returned and may have to wait and try again. */
  predicate MayWait(th: Thread) {
    th.job.Publishing? && th.pc != Done && th.job.begun <= th.job.delays
  }

  /** A call that stands before a reconnect; a subscribe also does so if it failed or has yet to fail. */
  predicate Pending(th: Thread) {
    || th.pc == Fast || th.pc == Enter
    || (th.job.Subscribing? && (th.pc == Send || th.pc == Drop || (th.pc == Keep && th.job.retrying)))
  }

  /** The event is still set, and nobody is on the way to reset it. */
  ghost predicate Settled(s: State) {
    && s.sh.returned && s.sh.abort
    && forall t :: t in s.threads ==> !Pending(s.threads[t])
  }

  /** A publish p that has begun n attempts. */
  predicate Began(s: State, p: Tid, n: nat) {
    p in s.threads && s.threads[p].job.Publishing? && s.threads[p].job.begun == n
  }

  // ---------------------------------------------------------------- no further attempt

  lemma SettledThread(sh: Shared, t: Tid, th: Thread, ok: bool)
    requires Global(sh) && Local(sh, t, th) && sh.returned && sh.abort && !Pending(th)
    requires StepThread(sh, t, th, ok).Some?
    ensures var Effect(sh', th') := StepThread(sh, t, th, ok).value;
      && sh'.returned && sh'.abort && !sh'.conn && !Pending(th')
      && (th.job.Publishing? ==> th'.job == th.job)
  {
  }

  lemma SettledStep(s: State, a: Action)
    requires Inv(s) && Settled(s) && a.Do?
    ensures Settled(Next(s, a))
    ensures forall p, n :: Began(s, p, n) ==> Began(Next(s, a), p, n)
  {
    if a.tid in s.threads {
      ClosedThread(s.sh, a.tid, s.threads[a.tid]) by { assert Local(s.sh, a.tid, s.threads[a.tid]); }
      hide Global, Local, StepThread, Pending;
      if StepThread(s.sh, a.tid, s.threads[a.tid], a.ok).Some? {
        SettledThread(s.sh, a.tid, s.threads[a.tid], a.ok);
      }
    }
  }

  lemma ClosedThread(sh: Shared, t: Tid, th: Thread)
    requires Local(sh, t, th) && sh.returned
    ensures th.pc != SetAbort && th.pc != StopLoop
  {
  }

  /** A publish that has no delay left, or has returned. */
  predicate Spent(th: Thread) {
    th.job.Publishing? && (th.pc == Done || th.job.begun > th.job.delays)
  }

  lemma SpentStep(s: State, a: Action, p: Tid)
    requires Inv(s) && p in s.threads && Spent(s.threads[p])
    ensures var s' := Next(s, a); p in s'.threads && Spent(s'.threads[p]) && s'.threads[p].job == s.threads[p].job
  {
    assert Local(s.sh, p, s.threads[p]);
    hide Global, Local;
  }

  lemma {:induction false} SettledRun(s: State, acts: seq<Action>, p: Tid, n: nat)
    requires Inv(s) && Settled(s) && Quiet(acts) && Began(s, p, n)
    ensures Began(Run(s, acts), p, n) && !Run(s, acts).sh.conn
    decreases |acts|
  {
    hide Settled, Next, Began, Local;
    if acts != [] {
      SettledStep(s, acts[0]);
      StepKeeps(s, acts[0]);
      SettledRun(Next(s, acts[0]), acts[1..], p, n);
    } else {
      Unconnected(s);
    }
  }

  lemma Unconnected(s: State)
    requires Inv(s) && Settled(s)
    ensures !s.sh.conn
  {
  }

  lemma {:induction false} SpentRun(s: State, acts: seq<Action>, p: Tid)
    requires Inv(s) && p in s.threads && Spent(s.threads[p])
    ensures Began(Run(s, acts), p, s.threads[p].job.begun)
    decreases |acts|
  {
    hide Inv, Next;
    if acts != [] {
      SpentStep(s, acts[0], p);
      StepKeeps(s, acts[0]);
      SpentRun(Next(s, acts[0]), acts[1..], p);
    }
  }

  // ---------------------------------------------------------------- a further attempt

  ghost predicate Leads(s: State, s': State) {
    exists acts :: Quiet(acts) && Run(s, acts) == s'
  }

  lemma {:induction false} RunAppend(s: State, acts: seq<Action>, more: seq<Action>)
    ensures Run(s, acts + more) == Run(Run(s, acts), more)
    decreases |acts|
  {
    hide Next;
    if acts == [] {
      assert acts + more == more;
    } else {
      assert (acts + more)[1..] == acts[1..] + more;
      RunAppend(Next(s, acts[0]), acts[1..], more);
    }
  }

  lemma Trans(s: State, s1: State, s2: State)
    requires Leads(s, s1) && Leads(s1, s2)
    ensures Leads(s, s2)
  {
    var acts :| Quiet(acts) && Run(s, acts) == s1;
    var more :| Quiet(more) && Run(s1, more) == s2;
    RunAppend(s, acts, more);
    assert Quiet(acts + more);
  }

  lemma Same(s: State)
    ensures Leads(s, s)
  {
    assert Run(s, []) == s && Quiet([]);
  }

  /** A thread's own step, to which the library answers no. */
  lemma Act(s: State, t: Tid) returns (s': State)
    requires Inv(s) && t in s.threads && s.threads[t].pc != SetAbort && s.threads[t].pc != StopLoop
    requires StepThread(s.sh, t, s.threads[t], false).Some?
    ensures var e := StepThread(s.sh, t, s.threads[t], false).value;
      s' == State(e.sh, s.threads[t := e.th]) && Inv(s') && Leads(s, s')
  {
    hide Inv, StepThread;
    s' := Next(s, Do(t, false));
    StepKeeps(s, Do(t, false));
    assert Run(s, [Do(t, false)]) == Run(s', [Do(t, false)][1..]) == s';
    assert Quiet([Do(t, false)]);
  }

  /** Whoever dials can leave the lock; p stays where it is, unless it is the one. */
  lemma Unlock(s: State, p: Tid) returns (s': State)
    requires Inv(s) && p in s.threads && s.threads[p].pc != Dial
    ensures Inv(s') && Leads(s, s') && s'.sh.lock.None? && p in s'.threads && s'.threads[p] == s.threads[p]
    ensures s'.sh.abort == s.sh.abort
  {
    if s.sh.lock.None? {
      Same(s);
      return s;
    }
    var u := s.sh.lock.value;
    assert Local(s.sh, u, s.threads[u]);
    hide Inv;
    s' := Act(s, u);
  }

  function PublishRank(pc: Pc): nat {
    match pc
    case Fast => 6
    case Enter => 5
    case Dial => 4
    case Send => 3
    case Drop => 2
    case Again => 1
    case _ => 0
  }

  /** While the event is not set, a publish with a delay left can come to its next attempt. */
  lemma {:induction false} Retries(s: State, p: Tid) returns (s': State)
    requires Inv(s) && !s.sh.abort && p in s.threads && MayWait(s.threads[p])
    ensures Leads(s, s') && Began(s', p, s.threads[p].job.begun + 1)
    decreases PublishRank(s.threads[p].pc)
  {
    assert Placed(s.threads[p]) by { assert Local(s.sh, p, s.threads[p]); }
    hide Inv;
    var s0 := s;
    if s.threads[p].pc != Dial { s0 := Unlock(s, p); } else { Same(s); }
    var s1 := Act(s0, p);
    Trans(s, s0, s1);
    if s.threads[p].pc == Waiting { return s1; }
    s' := Retries(s1, p);
    Trans(s, s1, s');
  }

  function ResetRank(pc: Pc): nat {
    match pc
    case Send => 5
    case Keep => 4
    case Drop => 3
    case Fast => 2
    case Enter => 1
    case _ => 0
  }

  /** A call that stands before a reconnect can reset the event. */
  lemma {:induction false} Resets(s: State, q: Tid, p: Tid) returns (s': State)
    requires Inv(s) && s.sh.returned && s.sh.abort && q in s.threads && Pending(s.threads[q])
    requires p in s.threads && MayWait(s.threads[p])
    ensures Inv(s') && Leads(s, s') && !s'.sh.abort && p in s'.threads && MayWait(s'.threads[p])
    ensures s'.threads[p].job == s.threads[p].job
    decreases ResetRank(s.threads[q].pc)
  {
    assert Local(s.sh, q, s.threads[q]) && Global(s.sh);
    hide Inv;
    var s1 := Act(s, q);
    if s.threads[q].pc == Enter { return s1; }
    s' := Resets(s1, q, p);
    Trans(s, s1, s');
  }

  // ---------------------------------------------------------------- exactly

  ghost predicate TriesAgain(s: State, p: Tid) {
    exists s' :: Leads(s, s') && p in s'.threads && s'.threads[p].job.Publishing? && p in s.threads &&
      s.threads[p].job.Publishing? && s'.threads[p].job.begun > s.threads[p].job.begun
  }

  /** Close has returned. Without any new call, a publish can begin another attempt exactly when it has a delay
      left and the event is no longer set or some call in flight stands before a reconnect. */
  lemma AbortExactly(s: State, p: Tid)
    requires Reachable(s) && s.sh.returned && p in s.threads && s.threads[p].job.Publishing?
    ensures TriesAgain(s, p) <==>
      MayWait(s.threads[p]) && (!s.sh.abort || exists q :: q in s.threads && Pending(s.threads[q]))
  {
    ReachableInv(s);
    hide Inv, Reachable, Pending;
    if MayWait(s.threads[p]) && (!s.sh.abort || exists q :: q in s.threads && Pending(s.threads[q])) {
      var s1 := s;
      if s.sh.abort {
        var q :| q in s.threads && Pending(s.threads[q]);
        s1 := Resets(s, q, p);
      } else {
        Same(s);
      }
      var s2 := Retries(s1, p);
      Trans(s, s1, s2);
    } else if TriesAgain(s, p) {
      hide MayWait;
      Stops(s, p);
    }
  }

  lemma Stops(s: State, p: Tid)
    requires Inv(s) && s.sh.returned && p in s.threads && s.threads[p].job.Publishing?
    requires !MayWait(s.threads[p]) || Settled(s)
    ensures !TriesAgain(s, p)
  {
    forall s' | Leads(s, s') ensures Began(s', p, s.threads[p].job.begun) {
      var acts :| Quiet(acts) && Run(s, acts) == s';
      if Settled(s) { SettledRun(s, acts, p, s.threads[p].job.begun); } else { SpentRun(s, acts, p); }
    }
  }

  /** A publish that waits while Close sets the event never tries again. */
  lemma WaitersStop(s: State, k: Tid, p: Tid, acts: seq<Action>)
    requires Reachable(s) && k in s.threads && s.threads[k].pc == SetAbort
    requires p in s.threads && s.threads[p].job.Publishing? && s.threads[p].pc == Waiting
    ensures Began(Run(Next(s, Do(k, true)), acts), p, s.threads[p].job.begun)
  {
    ReachableInv(s);
    assert Local(s.sh, p, s.threads[p]);
    StepKeeps(s, Do(k, true));
    SpentRun(Next(s, Do(k, true)), acts, p);
  }

  // ---------------------------------------------------------------- a run

  lemma Extend(s: State, a: Action)
    requires Reachable(s)
    ensures Reachable(Next(s, a))
  {
    hide Init, Next;
    var conn, acts :| s == Run(Init(conn), acts);
    RunAppend(Init(conn), acts, [a]);
    assert Run(s, [a]) == Run(Next(s, a), [a][1..]) == Next(s, a);
  }

  /** A publisher is about to reconnect while Close signals publishers and loop. */
  function Signalled(): State {
    State(Shared(true, true, false, false, None, false, Some(2), false),
          map[0 := Thread(Looping, Idle), 1 := Thread(Publishing(1, 1), Fast), 2 := Thread(Closing, Join)])
  }

  /** Both have just been called. */
  function Calling(): State {
    State(Shared(false, false, false, false, None, false, Some(2), false),
          map[0 := Thread(Looping, Idle), 1 := Thread(Publishing(1, 1), Fast), 2 := Thread(Closing, SetAbort)])
  }

  lemma CallingReachable()
    ensures Reachable(Calling())
  {
    var s := Init(false);
    assert Reachable(s) by { assert Run(s, []) == s; }
    hide Reachable;
    Extend(s, Start(1, CallPublish(1)));
    s := Next(s, Start(1, CallPublish(1)));
    Extend(s, Start(2, CallClose));
    s := Next(s, Start(2, CallClose));
    assert s == Calling();
  }

  lemma SignalledReachable()
    ensures Reachable(Signalled())
  {
    CallingReachable();
    var s := Calling();
    hide Reachable;
    Extend(s, Do(2, true));
    s := Next(s, Do(2, true));
    Extend(s, Do(2, true));
    s := Next(s, Do(2, true));
    assert s == Signalled();
  }

  /** The loop has ended. */
  function Ended(): State {
    State(Signalled().sh.(stop := false, ended := true), Signalled().threads[0 := Thread(Looping, Done)])
  }

  lemma EndedReachable()
    ensures Reachable(Ended())
  {
    SignalledReachable();
    hide Reachable;
    Extend(Signalled(), Do(0, true));
    assert Next(Signalled(), Do(0, true)) == Ended();
  }

  /** Close can return, the event still set, with a publish in flight that can try again. */
  lemma CloseCanBeIgnored()
    ensures exists s :: Reachable(s) && s.sh.returned && s.sh.abort && TriesAgain(s, 1)
  {
    EndedReachable();
    var s := Ended();
    hide Reachable, TriesAgain;
    Extend(s, Do(2, true));
    s := Next(s, Do(2, true));
    Extend(s, Do(2, true));
    s := Next(s, Do(2, true));
    assert s.sh.returned && s.threads[1] == Thread(Publishing(1, 1), Fast);
    AbortExactly(s, 1);
  }
}
