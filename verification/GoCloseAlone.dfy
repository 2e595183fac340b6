/** A condition under which Close always returns, that its caller can check beforehand. */
module GoCloseAlone {
  import opened Base
  import opened GoThreads
  import opened GoThreadsInv
  import opened GoThreadsRuns
  import opened GoTheorems
  import opened GoCloseReturns
  import opened GoSchedules
  import opened GoCloseExactly

  /** No publish is in flight, and no Close but k. */
  ghost predicate Alone(s: State, k: Tid) {
    && k in s.threads && s.threads[k].job.Closing?
    && forall t :: t in s.threads && (s.threads[t].job.Publishing? || (s.threads[t].job.Closing? && t != k)) ==>
         s.threads[t].pc == Done
  }

  /** Neither Publish nor Close is called. */
  predicate NoRival(a: Action) {
    a.Start? ==> !a.call.CallPublish? && !a.call.CallClose?
  }

  predicate NoRivals(acts: seq<Action>) {
    forall i :: 0 <= i < |acts| ==> NoRival(acts[i])
  }

  /** What a lone Close can count on. */
  ghost predicate Undisturbed(s: State, k: Tid) {
    Alone(s, k) && StopperAtWork(s) && (s.threads[k].pc == X(XSend) ==> !s.sh.stopped)
  }

  lemma NobodyListed(s: State, k: Tid)
    requires Inv(s) && Alone(s, k)
    ensures s.sh.events == {}
  {
    forall t | t in s.threads ensures Listed(s.threads[t]) <==> t in s.sh.events {
      assert Local(s.sh, t, s.threads[t]);
    }
    hide Local, Global;
  }

  lemma UndisturbedNotHung(s: State, k: Tid)
    requires Inv(s) && Undisturbed(s, k)
    ensures !Hung(s, k)
  {
    NobodyListed(s, k);
    hide Inv, LastAttempt;
  }

  /** A thread stays in the call it executes, and a returned call does nothing more. */
  lemma SameCall(sh: Shared, t: Tid, th: Thread, ch: Choice)
    requires StepThread(sh, t, th, ch).Some?
    ensures var th' := StepThread(sh, t, th, ch).value.th;
      && th'.job.Publishing? == th.job.Publishing? && th'.job.Closing? == th.job.Closing?
      && th.pc != Done
      && (th'.pc == X(XSend) ==> th.pc == X(XCheck) && sh.chan)
  {
  }

  lemma AloneStep(s: State, a: Action, k: Tid)
    requires Inv(s) && Alone(s, k) && NoRival(a)
    ensures Alone(Next(s, a), k)
  {
    hide Inv, StepThread;
    if a.Do? && Step(s, a).Some? { SameCall(s.sh, a.tid, s.threads[a.tid], a.choice); }
  }

  lemma UndisturbedStep(s: State, a: Action, k: Tid)
    requires Inv(s) && Undisturbed(s, k) && NoRival(a)
    ensures Undisturbed(Next(s, a), k)
  {
    AloneStep(s, a, k);
    StopperStep(s, a);
    hide Global, Local, StepThread;
    if a.Do? && Step(s, a).Some? {
      ThreadGood(s.sh, a.tid, s.threads[a.tid], a.choice);
      SameCall(s.sh, a.tid, s.threads[a.tid], a.choice);
    }
  }

  lemma {:induction false} UndisturbedRun(s: State, acts: seq<Action>, k: Tid)
    requires Inv(s) && Undisturbed(s, k) && NoRivals(acts)
    ensures Inv(Run(s, acts)) && Undisturbed(Run(s, acts), k)
    decreases |acts|
  {
    hide Inv, Undisturbed, Step;
    if acts != [] {
      UndisturbedStep(s, acts[0], k);
      StepKeeps(s, acts[0]);
      UndisturbedRun(Next(s, acts[0]), acts[1..], k);
    }
  }

  /** Close is called by k while no publish and no other Close is in flight, and none is called later. Then
      Close never hangs: in every continuation it can still return. */
  lemma LoneCloseReturns(s: State, acts: seq<Action>, k: Tid)
    requires Reachable(s) && Alone(s, k) && s.threads[k].pc == X(XStart) && NoRivals(acts)
    ensures var s' := Run(s, acts);
      !Hung(s', k) && (!s'.sh.panicked ==> CanReturn(s', k))
  {
    ReachableInv(s);
    assert StopperAtWork(s) by {
      if s.sh.chan && s.sh.stopped { var _ := Stopper(s); }
    }
    UndisturbedRun(s, acts, k);
    UndisturbedNotHung(Run(s, acts), k);
    hide Hung, CanReturn, StopperAtWork;
    ReachableRun(s, acts);
    if !Run(s, acts).sh.panicked { CloseReturnsExactly(Run(s, acts), k); }
  }

  lemma ReachableRun(s: State, acts: seq<Action>)
    requires Reachable(s)
    ensures Reachable(Run(s, acts))
  {
    hide Init, Run;
    var before :| s == Run(Init(), before);
    RunAppend(Init(), before, acts);
  }
}
