/** Safety of the Go client over whole runs and all interleavings. */
module GoThreadsRuns {
  import opened Base
  import opened GoThreads
  import opened GoThreadsInv

  lemma ReconnectGood(sh: Shared, t: Tid, job: Job, pc: RedialPc, ch: Choice)
    requires Global(sh) && Local(sh, t, Thread(job, R(pc)))
    ensures Good(sh, t, StepReconnect(sh, t, job, pc, ch))
  {
    hide Global, Local, Good, StepReconnect;
    match pc {
      case RFast => FastGood(sh, t, job, ch);
      case RUnlock(err) => UnlockGood(sh, t, job, err, ch);
      case RSet(_) => InstallGood(sh, t, job, pc, ch);
      case RReplay(_, _) => ReplayGood(sh, t, job, pc, ch);
      case RNested(_, _, _) => NestedGood(sh, t, job, pc, ch);
      case RNestedLock(_, _, _) => NestedGood(sh, t, job, pc, ch);
      case RNestedSend(_, _, _) => NestedGood(sh, t, job, pc, ch);
      case RDial => DialGood(sh, t, job, ch);
      case _ => LockGood(sh, t, job, pc, ch);
    }
  }

  lemma PublishGood(sh: Shared, t: Tid, job: Job, pc: PublishPc, ch: Choice)
    requires job.Publishing? && Global(sh) && Local(sh, t, Thread(job, P(pc)))
    ensures Good(sh, t, StepPublish(sh, t, job, pc, ch))
  {
    hide Global, Local, Good, StepPublish;
    if pc.PSend? || pc.PCall? || pc.PNext? || pc.PWait? { AttemptGood(sh, t, job, pc, ch); }
    else { EnlistGood(sh, t, job, pc, ch); }
  }

  /** Every step of every thread meets its guarantee. */
  lemma ThreadGood(sh: Shared, t: Tid, th: Thread, ch: Choice)
    requires Global(sh) && Local(sh, t, th)
    ensures Good(sh, t, StepThread(sh, t, th, ch))
  {
    hide Global, Local, Guarantee, StepReconnect, StepClose, StepPublish, StepSubscribe, StepLoop, StepRemove,
      StepShutdown;
    var job := th.job;
    match th.pc {
      case R(r) => ReconnectGood(sh, t, job, r, ch);
      case C(c) => CloseGood(sh, t, job, c);
      case P(p) => if job.Publishing? { PublishGood(sh, t, job, p, ch); }
      case S(b) => if job.Subscribing? { SubscribeGood(sh, t, job, b, ch); }
      case L(l) => LoopGood(sh, t, job, l, ch);
      case M(m) => if job.Removing? { RemoveGood(sh, t, job, m); }
      case X(x) => ShutdownGood(sh, t, job, x);
      case Done =>
    }
  }

  lemma DoKeeps(s: State, t: Tid, ch: Choice)
    requires Inv(s)
    ensures Inv(Next(s, Do(t, ch)))
  {
    hide Global, Local, StepThread;
    if Step(s, Do(t, ch)).Some? {
      var th := s.threads[t];
      var e := StepThread(s.sh, t, th, ch).value;
      var s' := Apply(s, t, e);
      ThreadGood(s.sh, t, th, ch);
      forall u | u in s'.threads ensures Local(s'.sh, u, s'.threads[u]) {
        if u != t { Stable(s.sh, s'.sh, t, u, s.threads[u]); }
      }
    }
  }

  lemma StartKeeps(s: State, t: Tid, call: Call)
    requires Inv(s)
    ensures Inv(Next(s, Start(t, call)))
  {
    hide Global, Local, Begin;
    if Step(s, Start(t, call)).Some? { BeginGood(s.sh, t, call); }
  }

  lemma AbortKeeps(s: State, t: Tid, p: Tid)
    requires Inv(s)
    ensures Inv(Next(s, SendAbort(t, p)))
  {
    hide Global, Local;
    if Step(s, SendAbort(t, p)).Some? {
      var s' := Next(s, SendAbort(t, p));
      AbortGood(s.sh, p, s.threads[p]);
      forall u | u in s'.threads ensures Local(s'.sh, u, s'.threads[u]) {
        if u != p { Stable(s.sh, s'.sh, p, u, s.threads[u]); }
      }
    }
  }

  lemma StopLoopKeeps(s: State, t: Tid)
    requires Inv(s)
    ensures Inv(Next(s, SendStop(t)))
  {
    hide Global, Local;
    if Step(s, SendStop(t)).Some? {
      var s' := Next(s, SendStop(t));
      forall u | u in s.threads ensures Global(s'.sh) && Local(s'.sh, u, s'.threads[u]) {
        StopGood(s.sh, u, s.threads[u]);
      }
    }
  }

  lemma StepKeeps(s: State, a: Action)
    requires Inv(s)
    ensures Inv(Next(s, a))
  {
    match a
    case Start(t, call) => StartKeeps(s, t, call);
    case Do(t, ch) => DoKeeps(s, t, ch);
    case SendAbort(t, p) => AbortKeeps(s, t, p);
    case SendStop(t) => StopLoopKeeps(s, t);
  }

  lemma InitInv()
    ensures Inv(Init())
  {
  }

  lemma {:induction false} RunKeeps(s: State, acts: seq<Action>)
    requires Inv(s)
    ensures Inv(Run(s, acts))
    decreases |acts|
  {
    if acts != [] {
      StepKeeps(s, acts[0]);
      RunKeeps(Next(s, acts[0]), acts[1..]);
    }
  }

  lemma {:induction false} RunAppend(s: State, acts: seq<Action>, more: seq<Action>)
    ensures Run(s, acts + more) == Run(Run(s, acts), more)
    decreases |acts|
  {
    hide Next;
    if acts == [] {
      assert acts + more == more;
    } else {
      assert (acts + more)[1..] == acts[1..] + more;
      RunAppend(Next(s, acts[0]), acts[1..], more);
    }
  }
}
