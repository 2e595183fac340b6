/** Exactly when Close can return, and exactly when it hangs for good. */
module GoCloseReturns {
  import opened Base
  import opened GoThreads
  import opened GoThreadsInv
  import opened GoThreadsRuns
  import opened GoTheorems

  // ---------------------------------------------------------------- the condition

  /** A publisher that has no delay left to wait for, whatever becomes of its current attempt. */
  predicate LastAttempt(th: Thread) {
    th.job.Publishing? &&
    match th.pc
    case R(_) => |th.job.tries| >= th.job.delays
    case C(_) => |th.job.tries| > th.job.delays
    case P(p) =>
      if p.PSend? || p.PCall? then |th.job.tries| >= th.job.delays
      else if p.PNext? then |th.job.tries| > th.job.delays
      else p.PEnd?
    case _ => false
  }

  /** Close h owns the abort lock and has yet to signal a publisher that will not wait again. */
  ghost predicate Blocked(s: State, h: Tid) {
    && h in s.threads && s.threads[h] == Thread(Closing, X(XAborts))
    && exists p :: p in s.sh.events && p in s.threads && LastAttempt(s.threads[p])
  }

  /** Close k waits for something that cannot come: a publisher on its last attempt, a loop that has
      already returned, or a lock whose owner is a Close in the first situation. */
  ghost predicate Hung(s: State, k: Tid) {
    k in s.threads && s.threads[k].job.Closing? &&
    match s.threads[k].pc
    case X(XStart) => exists h :: Blocked(s, h)
    case X(XAborts) => Blocked(s, k)
    case X(XSend) => s.sh.stopped
    case _ => false
  }

  // ---------------------------------------------------------------- a Close that hangs

  /** A last attempt stays the last, and is followed by a cleanup that needs the abort lock. */
  lemma LastStep(sh: Shared, p: Tid, th: Thread, ch: Choice)
    requires Local(sh, p, th) && p in sh.events && LastAttempt(th)
    requires sh.abortLock.Some? && StepThread(sh, p, th, ch).Some?
    ensures var e := StepThread(sh, p, th, ch).value; e.sh.events == sh.events && LastAttempt(e.th)
  {
    StillPublishing(sh, p, th);
    hide Local;
    match th.pc {
      case R(r) => LastRedial(sh, p, th.job, r, ch);
      case _ =>
    }
    hide StepReconnect, StepSubscribe, StepLoop, StepRemove, StepShutdown;
  }

  lemma StillPublishing(sh: Shared, p: Tid, th: Thread)
    requires Local(sh, p, th) && p in sh.events
    ensures th.job.Publishing? && th.pc != P(PStart) && th.pc != P(PRegister)
  {
  }

  lemma LastRedial(sh: Shared, p: Tid, job: Job, pc: RedialPc, ch: Choice)
    requires LastAttempt(Thread(job, R(pc))) && StepReconnect(sh, p, job, pc, ch).Some?
    ensures var e := StepReconnect(sh, p, job, pc, ch).value; e.sh.events == sh.events && LastAttempt(e.th)
  {
  }

  /** The only thread that can act on the abort registry or the abort lock is the owner of that lock. */
  lemma AbortOwner(s: State, h: Tid)
    requires Inv(s) && h in s.threads && s.threads[h].pc == X(XAborts)
    ensures s.sh.abortLock == Some(h) && h != 0
    ensures forall t :: t in s.threads && s.threads[t].pc == X(XAborts) ==> t == h
  {
    assert forall t :: t in s.threads ==> Local(s.sh, t, s.threads[t]);
    hide PassAt, ConnAt, PublisherAt, SubscriberAt, Global;
  }

  /** While h owns the abort lock, a listed publisher on its last attempt stays one. */
  lemma StaysLast(s: State, a: Action, h: Tid, p: Tid)
    requires Inv(s) && h in s.threads && s.threads[h] == Thread(Closing, X(XAborts))
    requires p in s.sh.events && p in s.threads && LastAttempt(s.threads[p])
    ensures p in Next(s, a).sh.events && p in Next(s, a).threads && LastAttempt(Next(s, a).threads[p])
  {
    AbortOwner(s, h);
    PublishesNow(s.threads[p]);
    hide Global, Local, StepThread, LastAttempt;
    if a.Do? && Step(s, a).Some? {
      if a.tid == p { LastStep(s.sh, p, s.threads[p], a.choice); }
      else { ThreadGood(s.sh, a.tid, s.threads[a.tid], a.choice); }
    }
  }

  lemma BlockedStep(s: State, a: Action, h: Tid)
    requires Inv(s) && Blocked(s, h)
    ensures Blocked(Next(s, a), h)
  {
    var p :| p in s.sh.events && p in s.threads && LastAttempt(s.threads[p]);
    StaysLast(s, a, h, p);
    LocalPlace(s, h);
    if a.Do? { CloserWaits(s.sh, h, p, a.choice); }
    hide Inv, StepThread, LastAttempt;
  }

  lemma PublishesNow(th: Thread)
    requires LastAttempt(th)
    ensures th.job.Publishing? && th.pc != P(PWait)
  {
  }

  lemma CloserWaits(sh: Shared, h: Tid, p: Tid, ch: Choice)
    requires p in sh.events
    ensures StepThread(sh, h, Thread(Closing, X(XAborts)), ch).None?
  {
  }

  lemma {:induction false} HungForever(s: State, acts: seq<Action>, k: Tid)
    requires Inv(s) && Hung(s, k)
    ensures Hung(Run(s, acts), k)
    decreases |acts|
  {
    hide Inv, Hung, Step;
    if acts != [] {
      HungStep(s, acts[0], k);
      StepKeeps(s, acts[0]);
      HungForever(Next(s, acts[0]), acts[1..], k);
    }
  }

  lemma HungStep(s: State, a: Action, k: Tid)
    requires Inv(s) && Hung(s, k)
    ensures Hung(Next(s, a), k)
  {
    hide Blocked;
    match s.threads[k].pc.x
    case XSend => StoppedStep(s, a, k);
    case XAborts => BlockedStep(s, a, k); BlockedAt(s, k); BlockedAt(Next(s, a), k);
    case XStart =>
      var h :| Blocked(s, h);
      BlockedStep(s, a, h);
      BlockedAt(s, h);
      AbortOwner(s, h);
      WaiterStays(s, a, k);
  }

  lemma BlockedAt(s: State, h: Tid)
    requires Blocked(s, h)
    ensures h in s.threads && s.threads[h] == Thread(Closing, X(XAborts))
  {
  }

  lemma WaiterStays(s: State, a: Action, k: Tid)
    requires k in s.threads && s.threads[k] == Thread(Closing, X(XStart)) && s.sh.abortLock.Some?
    ensures k in Next(s, a).threads && Next(s, a).threads[k] == s.threads[k]
  {
    hide StepReconnect, StepClose, StepPublish, StepSubscribe, StepLoop, StepRemove;
  }

  /** The loop has returned, so nobody receives a second stop signal. */
  lemma StoppedStep(s: State, a: Action, k: Tid)
    requires Inv(s) && k in s.threads && s.threads[k] == Thread(Closing, X(XSend)) && s.sh.stopped
    ensures var s' := Next(s, a); k in s'.threads && s'.threads[k] == s.threads[k] && s'.sh.stopped
  {
    assert Local(s.sh, 0, s.threads[0]);
    hide Global, Local, StepReconnect, StepClose, StepPublish, StepSubscribe, StepLoop, StepRemove;
    if a.Do? && Step(s, a).Some? { ThreadGood(s.sh, a.tid, s.threads[a.tid], a.choice); }
  }
}
