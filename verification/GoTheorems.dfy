/** What the Go client guarantees under every interleaving. */
module GoTheorems {
  import opened Base
  import opened GoThreads
  import opened GoThreadsInv
  import opened GoThreadsRuns

  ghost predicate Reachable(s: State) {
    exists acts :: s == Run(Init(), acts)
  }

  lemma ReachableInv(s: State)
    requires Reachable(s)
    ensures Inv(s)
  {
    hide Init, Inv;
    var acts :| s == Run(Init(), acts);
    InitInv();
    RunKeeps(Init(), acts);
  }

  lemma Extend(s: State, a: Action)
    requires Reachable(s)
    ensures Reachable(Next(s, a))
  {
    hide Init, Next;
    var acts :| s == Run(Init(), acts);
    RunAppend(Init(), acts, [a]);
    assert Run(s, [a]) == Run(Next(s, a), [a][1..]) == Next(s, a);
  }

  // ---------------------------------------------------------------- connections

  /** The library has handed c out and Close has not been called on it. */
  predicate Open(n: Net, c: ConnId) {
    c < n.dialed && c !in n.closed
  }

  /** At most one connection is open at any time, and while nobody is inside a critical section the
      open ones are exactly the current one. */
  lemma SingleConnection(s: State)
    requires Reachable(s)
    ensures forall c, d | Open(s.sh.net, c) && Open(s.sh.net, d) :: c == d
    ensures s.sh.lock.None? ==> forall c: ConnId :: Open(s.sh.net, c) <==> s.sh.net.conn == Some(c)
  {
    ReachableInv(s);
    if s.sh.lock.Some? {
      var t := s.sh.lock.value;
      assert Local(s.sh, t, s.threads[t]);
      assert ConnAt(s.sh.net, s.threads[t].pc);
    }
  }

  lemma NetGrows(s: State, a: Action)
    requires Inv(s)
    ensures NetMove(s.sh.net, Next(s, a).sh.net)
  {
    hide Global, Local, StepThread;
    if a.Do? && Step(s, a).Some? { ThreadGood(s.sh, a.tid, s.threads[a.tid], a.choice); }
  }

  /** A connection that has been current and no longer is never becomes current again. */
  lemma {:induction false} RetiredStaysRetired(s: State, acts: seq<Action>, c: ConnId)
    requires Inv(s) && c < s.sh.net.installed && s.sh.net.conn != Some(c)
    ensures Run(s, acts).sh.net.conn != Some(c)
    decreases |acts|
  {
    hide Inv, Step;
    if acts != [] {
      NetGrows(s, acts[0]);
      StepKeeps(s, acts[0]);
      RetiredStaysRetired(Next(s, acts[0]), acts[1..], c);
    }
  }

  // ---------------------------------------------------------------- locks

  /** Points from which the next step acquires m.Mutex. */
  predicate WantsLock(pc: Pc) {
    match pc
    case R(r) => r.RLock? || r.RNestedLock?
    case C(c) => c.CLock?
    case L(l) => l.LLock?
    case M(m) => m.MLock?
    case _ => false
  }

  predicate WantsAbortLock(pc: Pc) {
    pc == P(PStart) || pc == P(PEnd) || pc == X(XStart)
  }

  /** No thread waits for a lock it owns. The reconnect nested in a resubscription never reaches its
      own lock: the connection is set, so it returns at once. */
  lemma LockDiscipline(s: State, t: Tid)
    requires Reachable(s) && t in s.threads
    ensures WantsLock(s.threads[t].pc) ==> s.sh.lock != Some(t)
    ensures WantsAbortLock(s.threads[t].pc) ==> s.sh.abortLock != Some(t)
    ensures s.threads[t].pc.R? ==>
              var r := s.threads[t].pc.r;
              !r.RNestedLock? && (r.RNested? || r.RNestedSend? ==> s.sh.lock == Some(t) && s.sh.net.conn.Some?)
  {
    ReachableInv(s);
    assert Local(s.sh, t, s.threads[t]);
  }

  /** While t owns m.Mutex nobody else changes the connection. */
  lemma OnlyTheOwnerChangesTheConnection(s: State, t: Tid, a: Action)
    requires Reachable(s) && s.sh.lock == Some(t) && a.tid != t
    ensures Next(s, a).sh.net == s.sh.net
  {
    ReachableInv(s);
    hide Global, Local, StepThread;
    if a.Do? && Step(s, a).Some? { ThreadGood(s.sh, a.tid, s.threads[a.tid], a.choice); }
  }

  // ---------------------------------------------------------------- publishing

  /** Within one Publish every attempt that reaches a connection uses a strictly newer one than the
      attempts before it; an acknowledgement ends the call. A call that returns made between one
      and delays + 1 attempts: all of them, unless it was acknowledged or aborted. */
  lemma FailedPublishesMoveForward(s: State, t: Tid)
    requires Reachable(s) && t in s.threads && s.threads[t].job.Publishing?
    ensures var Publishing(delays, tries, signalled) := s.threads[t].job;
      && (forall i, j :: 0 <= i < j < |tries| && tries[i].conn.Some? && tries[j].conn.Some? ==>
            tries[i].conn.value < tries[j].conn.value)
      && (forall i :: 0 <= i < |tries| && tries[i].acked ==> i == |tries| - 1)
      && (s.threads[t].pc == Done ==>
            && 1 <= |tries| <= delays + 1
            && (tries[|tries| - 1].acked || signalled || |tries| == delays + 1))
  {
    ReachableInv(s);
    assert Local(s.sh, t, s.threads[t]);
  }

  /** pubAborts.events holds exactly the publishers that have registered, have not cleaned up and
      have not been signalled. */
  lemma AbortRegistry(s: State)
    requires Reachable(s)
    ensures s.sh.events == set t | t in s.threads && Listed(s.threads[t])
  {
    ReachableInv(s);
    forall t | t in s.threads ensures Listed(s.threads[t]) <==> t in s.sh.events {
      assert Local(s.sh, t, s.threads[t]);
    }
  }

  lemma SignalledStep(s: State, t: Tid, a: Action)
    requires Inv(s) && t in s.threads && s.threads[t].job.Publishing? && s.threads[t].job.signalled
    ensures t in Next(s, a).threads && Next(s, a).threads[t].job == s.threads[t].job
  {
    assert Local(s.sh, t, s.threads[t]);
    hide Global, Local, StepReconnect, StepClose;
    if a.SendStop? && t == 0 { LocalPlace(s, t); }
  }

  lemma LocalPlace(s: State, t: Tid)
    requires Inv(s) && t in s.threads
    ensures Placed(t, s.threads[t])
  {
    assert Local(s.sh, t, s.threads[t]);
  }

  /** A publisher that takes the abort branch makes no further attempt and returns its last error. */
  lemma {:induction false} AbortedIsFinal(s: State, acts: seq<Action>, t: Tid)
    requires Inv(s) && t in s.threads && s.threads[t].job.Publishing? && s.threads[t].job.signalled
    ensures var s' := Run(s, acts);
      && t in s'.threads && s'.threads[t].job == s.threads[t].job
      && Failed(s'.threads[t].job.tries)
    decreases |acts|
  {
    assert Local(s.sh, t, s.threads[t]);
    hide Inv, Local, Step;
    if acts != [] {
      SignalledStep(s, t, acts[0]);
      StepKeeps(s, acts[0]);
      AbortedIsFinal(Next(s, acts[0]), acts[1..], t);
    }
  }

  // ---------------------------------------------------------------- registry

  /** A returned QueueSubscribe has registered its token, whatever the broker said; the token is
      still there or has been removed. */
  lemma SubscribeRegisters(s: State, t: Tid)
    requires Reachable(s) && t in s.threads && s.threads[t].job.Subscribing? && s.threads[t].pc == Done
    ensures t in s.sh.subs <==> !Gone(s.sh.removed, t)
  {
    ReachableInv(s);
    assert Local(s.sh, t, s.threads[t]);
  }

  /** Of all the calls that remove one token, at most one succeeds. */
  lemma RemovedOnce(s: State, t: Tid, u: Tid)
    requires Reachable(s) && t in s.threads && u in s.threads
    requires s.threads[t].job.Removing? && s.threads[u].job.Removing?
    requires s.threads[t].job.found && s.threads[u].job.found && s.threads[t].job.token == s.threads[u].job.token
    ensures t == u && s.threads[t].job.token !in s.sh.subs
  {
    ReachableInv(s);
    assert Local(s.sh, t, s.threads[t]) && Local(s.sh, u, s.threads[u]);
    var k := s.threads[t].job.token;
    assert Gone(s.sh.removed, k);
  }

  /** k's subscriber has registered. */
  predicate WasRegistered(s: State, k: Token) {
    k in s.threads && s.threads[k].job.Subscribing? && Registered(s.threads[k])
  }

  /** t removes k, and if it is past the deletion, k has been removed. */
  ghost predicate RemovalAt(s: State, t: Tid, k: Token) {
    && t in s.threads && s.threads[t].job.Removing? && s.threads[t].job.token == k && WasRegistered(s, k)
    && (s.threads[t].pc == M(MUnlock) || s.threads[t].pc == Done ==> Gone(s.sh.removed, k))
  }

  /** Removals are never forgotten, and a call stays the call it is. */
  lemma RemovalKept(s: State, a: Action, t: Tid, k: Token)
    requires Inv(s) && RemovalAt(s, t, k)
    ensures var s' := Next(s, a);
      && (Gone(s.sh.removed, k) ==> Gone(s'.sh.removed, k)) && WasRegistered(s', k)
      && t in s'.threads && s'.threads[t].job.Removing? && s'.threads[t].job.token == k
  {
    LocalPlace(s, 0);
    hide Global, Local;
    if a.Do? && Step(s, a).Some? {
      ThreadGood(s.sh, a.tid, s.threads[a.tid], a.choice);
      SameJob(s.sh, a.tid, s.threads[a.tid], a.choice);
      forall r ensures Gone(s.sh.removed, k) ==> Gone(s.sh.removed + [r], k) { GoneAfter(s.sh.removed, r, k); }
    }
    hide StepThread, Guarantee, Gone;
  }

  lemma SameJob(sh: Shared, t: Tid, th: Thread, ch: Choice)
    requires StepThread(sh, t, th, ch).Some?
    ensures var th' := StepThread(sh, t, th, ch).value.th;
      && (th.job.Removing? ==> th'.job.Removing? && th'.job.token == th.job.token)
      && (th.job.Subscribing? && Registered(th) ==> th'.job.Subscribing? && Registered(th'))
  {
  }

  /** The deletion finds the token, or somebody has removed it before. */
  lemma DeletionRemoves(s: State, t: Tid, k: Token, ch: Choice)
    requires Inv(s) && RemovalAt(s, t, k) && StepThread(s.sh, t, s.threads[t], ch).Some?
    ensures var e := StepThread(s.sh, t, s.threads[t], ch).value;
      e.th.pc == M(MUnlock) || e.th.pc == Done ==> Gone(e.sh.removed, k)
  {
    assert SubscriberAt(s.sh, k, s.threads[k]) by { assert Local(s.sh, k, s.threads[k]); }
    assert JobAt(s.threads[t]) by { assert Local(s.sh, t, s.threads[t]); }
    hide Inv, StepReconnect, StepClose, StepPublish, StepSubscribe, StepLoop, StepShutdown;
    GoneAfter(s.sh.removed, Removal(k, t), k);
  }

  lemma RemovalStep(s: State, a: Action, t: Tid, k: Token)
    requires Inv(s) && RemovalAt(s, t, k)
    ensures RemovalAt(Next(s, a), t, k)
  {
    RemovalKept(s, a, t, k);
    LocalPlace(s, 0);
    hide Inv, StepThread, Gone;
    if a.Do? && a.tid == t && Step(s, a).Some? { DeletionRemoves(s, t, k, a.choice); }
  }

  lemma {:induction false} RemovalRun(s: State, acts: seq<Action>, t: Tid, k: Token)
    requires Inv(s) && RemovalAt(s, t, k)
    ensures Inv(Run(s, acts)) && RemovalAt(Run(s, acts), t, k)
    decreases |acts|
  {
    hide Inv, RemovalAt, Step;
    if acts != [] {
      RemovalStep(s, acts[0], t, k);
      StepKeeps(s, acts[0]);
      RemovalRun(Next(s, acts[0]), acts[1..], t, k);
    }
  }

  /** A removal of a registered token that returns has removed it, or another call had: the token is in no
      later registry, exactly one call has removed it, and the call reports success exactly if it is
      that one. */
  lemma RemovalTakesEffect(s: State, acts: seq<Action>, t: Tid, k: Token)
    requires Reachable(s) && t in s.threads && s.threads[t] == Begin(CallRemove(k)) && WasRegistered(s, k)
    requires t in Run(s, acts).threads && Run(s, acts).threads[t].pc == Done
    ensures k !in Run(s, acts).sh.subs && RemovedByOne(Run(s, acts), t, k)
  {
    ReachableInv(s);
    hide Inv, Run, RemovalAt;
    assert RemovalAt(s, t, k) by { assert s.threads[t].pc == M(MLock); }
    RemovalRun(s, acts, t, k);
    RemovedOnceDone(Run(s, acts), t, k);
  }

  /** Exactly one call has removed k; t's call, which has returned, reports success exactly if it is that one. */
  ghost predicate RemovedByOne(s: State, t: Tid, k: Token) {
    && t in s.threads && s.threads[t].job.Removing?
    && exists i :: 0 <= i < |s.sh.removed| && s.sh.removed[i].token == k
                   && (forall j :: 0 <= j < |s.sh.removed| && s.sh.removed[j].token == k ==> j == i)
                   && (s.threads[t].job.found <==> s.sh.removed[i].caller == t)
  }

  lemma RemovedOnceDone(s: State, t: Tid, k: Token)
    requires Inv(s) && RemovalAt(s, t, k) && s.threads[t].pc == Done
    ensures k !in s.sh.subs && RemovedByOne(s, t, k)
  {
    assert s.threads[t].job.found <==> Removal(k, t) in s.sh.removed by { assert Local(s.sh, t, s.threads[t]); }
    var i :| 0 <= i < |s.sh.removed| && s.sh.removed[i].token == k;
    assert s.sh.removed[i].caller == t ==> s.sh.removed[i] == Removal(k, t);
    hide Local, Settled, PassesOk;
  }
}
