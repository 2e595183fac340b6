/** Schedules: from any state, what the environment and the scheduler can bring about. */
module GoSchedules {
  import opened Base
  import opened GoThreads
  import opened GoThreadsInv
  import opened GoThreadsRuns
  import opened GoTheorems
  import opened GoCloseReturns

  ghost predicate Leads(s: State, s': State) {
    exists acts :: Run(s, acts) == s'
  }

  /** A state of a process that has not crashed. */
  ghost predicate Alive(s: State) {
    Reachable(s) && Inv(s) && !s.sh.panicked
  }

  lemma Trans(s: State, s1: State, s2: State)
    requires Leads(s, s1) && Leads(s1, s2)
    ensures Leads(s, s2)
  {
    var acts :| Run(s, acts) == s1;
    var more :| Run(s1, more) == s2;
    RunAppend(s, acts, more);
  }

  lemma Same(s: State)
    ensures Leads(s, s)
  {
    assert Run(s, []) == s;
  }

  lemma Act(s: State, a: Action) returns (s': State)
    requires Alive(s) && !Next(s, a).sh.panicked
    ensures s' == Next(s, a) && Alive(s') && Leads(s, s')
  {
    s' := Next(s, a);
    assert Run(s, [a]) == s' by { assert Run(s', [a][1..]) == s'; }
    Extend(s, a);
    StepKeeps(s, a);
  }

  // ---------------------------------------------------------------- one thread running alone

  /** Between two places where a thread may have to wait for others: it owns m.Mutex, or needs nothing but
      m.Mutex to go on. */
  predicate Busy(th: Thread) {
    match th.pc
    case R(_) => true
    case C(_) => true
    case P(p) => p.PSend? || p.PCall? || p.PNext?
    case L(l) => !l.LWait?
    case M(m) => !m.MLock?
    case _ => false
  }

  /** The broker refuses every dial and publish and accepts every ping; a resubscription pass visits what
      it has to and ends. */
  ghost function Plan(th: Thread): Choice {
    match th.pc
    case R(RReplay(start, seen)) =>
      if start <= seen then Choice(false, 0) else var k :| k in start - seen; Choice(true, k)
    case L(_) => Choice(true, 0)
    case _ => Choice(false, 0)
  }

  function RedialRank(n: nat, pc: RedialPc): nat {
    match pc
    case RFast => 3 * n + 7
    case RLock => 3 * n + 6
    case RSlow => 3 * n + 5
    case RDial => 3 * n + 4
    case RSet(_) => 3 * n + 3
    case RReplay(start, seen) => 3 * |start - seen| + 2
    case RNested(k, start, seen) => 3 * |start - seen - {k}| + 4
    case RNestedLock(k, start, seen) => 0
    case RNestedSend(k, start, seen) => 3 * |start - seen - {k}| + 3
    case RUnlock(_) => 1
  }

  function DropRank(pc: DropPc): nat {
    match pc
    case CLock => 4
    case CConn => 3
    case CClear => 2
    case CUnlock => 1
  }

  function LoopRank(pc: LoopPc): nat {
    match pc
    case LWait => 0
    case LCheck => 4
    case LLock => 3
    case LPing => 2
    case LUnlock(_) => 1
  }

  /** Bounds the steps left before the thread is no longer busy; n is the size of the registry. */
  function Rank(n: nat, th: Thread): nat {
    match th.pc
    case R(r) => RedialRank(n, r) + if th.job.Publishing? then 20 else 0
    case C(c) => DropRank(c) + if th.job.Publishing? then 2 else 3 * n + 10
    case P(p) => if p.PSend? then 12 else if p.PCall? then 11 else if p.PNext? then 1 else 0
    case L(l) => LoopRank(l) + if l.LWait? then 0 else 3 * n + 20
    case M(m) => if m.MDelete? then 2 else if m.MUnlock? then 1 else 0
    case _ => 0
  }

  /** What running alone keeps of a thread. */
  predicate Kept(th: Thread, th': Thread) {
    && (th.pc.X? ==> th' == th)
    && (th'.pc.X? ==> th.pc.X?)
    && th'.job.Closing? == th.job.Closing?
    && th'.job.Publishing? == th.job.Publishing?
    && LastAttempt(th') == LastAttempt(th)
  }

  /** The shared state apart from the mutex, the connection and the registry. */
  predicate Calmly(sh: Shared, sh': Shared) {
    && !sh'.panicked && sh'.abortLock == sh.abortLock && sh'.events == sh.events
    && sh'.chan == sh.chan && sh'.stopped == sh.stopped
  }

  ghost predicate Free(sh: Shared, t: Tid) {
    sh.lock.None? || sh.lock == Some(t)
  }

  /** Inside reconnect with a connection. */
  predicate Redialed(sh: Shared, th: Thread) {
    th.pc.R? && sh.net.conn.Some?
  }

  ghost predicate Advances(sh: Shared, t: Tid, th: Thread, e: Option<Effect>) {
    && e.Some? && Calmly(sh, e.value.sh) && Free(e.value.sh, t) && Kept(th, e.value.th)
    && Rank(|e.value.sh.subs|, e.value.th) < Rank(|sh.subs|, th)
    && (Redialed(sh, th) ==> e.value.sh.net.conn == sh.net.conn && (e.value.sh.lock.None? || e.value.th.pc.R?))
  }

  lemma ReturnAdvances(sh: Shared, t: Tid, job: Job, pc: RedialPc)
    requires Local(sh, t, Thread(job, R(pc))) && Free(sh, t) && !sh.panicked && (pc.RFast? || pc.RUnlock?)
    ensures Advances(sh, t, Thread(job, R(pc)), StepReconnect(sh, t, job, pc, Choice(false, 0)))
  {
    hide Settled, SubscriberAt, PublisherAt, PassAt;
  }

  lemma RedialAdvances(sh: Shared, t: Tid, job: Job, pc: RedialPc)
    requires Local(sh, t, Thread(job, R(pc))) && Free(sh, t) && !sh.panicked
    requires pc.RLock? || pc.RSlow? || pc.RDial?
    ensures Advances(sh, t, Thread(job, R(pc)), StepReconnect(sh, t, job, pc, Choice(false, 0)))
  {
    hide Settled, SubscriberAt, PublisherAt, PassAt, AfterReconnect;
  }

  lemma InstallAdvances(sh: Shared, t: Tid, job: Job, c: ConnId)
    requires Local(sh, t, Thread(job, R(RSet(c)))) && Free(sh, t) && !sh.panicked
    ensures Advances(sh, t, Thread(job, R(RSet(c))), StepReconnect(sh, t, job, RSet(c), Choice(false, 0)))
  {
    hide Settled, AllClosedBelow, SubscriberAt, PublisherAt, PassAt, AfterReconnect;
    assert sh.subs - {} == sh.subs;
  }

  lemma ReplayAdvances(sh: Shared, t: Tid, job: Job, start: set<Token>, seen: set<Token>)
    requires Local(sh, t, Thread(job, R(RReplay(start, seen)))) && Free(sh, t) && !sh.panicked
    ensures var pc := RReplay(start, seen);
      Advances(sh, t, Thread(job, R(pc)), StepReconnect(sh, t, job, pc, Plan(Thread(job, R(pc)))))
  {
    hide Settled, SubscriberAt, PublisherAt, AfterReconnect, ConnAt;
    var ch := Plan(Thread(job, R(RReplay(start, seen))));
    assert if start <= seen then !ch.ok else ch.ok && ch.token in start - seen;
    hide Plan;
    if ch.ok { PassShrinks(start, seen, ch.token); }
  }

  /** The nested reconnect takes its fast path. */
  lemma NestedAdvances(sh: Shared, t: Tid, job: Job, pc: RedialPc)
    requires Local(sh, t, Thread(job, R(pc))) && Free(sh, t) && !sh.panicked
    requires pc.RNested? || pc.RNestedLock? || pc.RNestedSend?
    ensures Advances(sh, t, Thread(job, R(pc)), StepReconnect(sh, t, job, pc, Choice(false, 0)))
  {
    NestedConnected(sh, t, job, pc);
    hide Local, AfterReconnect, RedialRank;
    NestedRank(|sh.subs|, pc);
  }

  lemma NestedRank(n: nat, pc: RedialPc)
    requires pc.RNested? || pc.RNestedSend?
    ensures pc.RNested? ==> RedialRank(n, RNestedSend(pc.token, pc.start, pc.seen)) < RedialRank(n, pc)
    ensures pc.RNestedSend? ==> RedialRank(n, RReplay(pc.start, pc.seen + {pc.token})) < RedialRank(n, pc)
  {
    assert pc.start - (pc.seen + {pc.token}) == pc.start - pc.seen - {pc.token};
  }

  lemma NestedConnected(sh: Shared, t: Tid, job: Job, pc: RedialPc)
    requires Local(sh, t, Thread(job, R(pc))) && (pc.RNested? || pc.RNestedLock? || pc.RNestedSend?)
    ensures sh.net.conn.Some? && !pc.RNestedLock? && sh.lock == Some(t)
  {
    hide Settled, PassAt, SubscriberAt, PublisherAt;
  }

  lemma PassShrinks(start: set<Token>, seen: set<Token>, k: Token)
    requires k in start - seen
    ensures |start - seen| == |start - seen - {k}| + 1
  {
    assert start - seen == (start - seen - {k}) + {k};
  }

  lemma DropAdvances(sh: Shared, t: Tid, job: Job, pc: DropPc)
    requires Local(sh, t, Thread(job, C(pc))) && Free(sh, t) && !sh.panicked
    ensures Advances(sh, t, Thread(job, C(pc)), StepClose(sh, t, job, pc))
  {
    hide Settled, SubscriberAt;
  }

  lemma AttemptAdvances(sh: Shared, t: Tid, job: Job, pc: PublishPc)
    requires Local(sh, t, Thread(job, P(pc))) && Free(sh, t) && !sh.panicked && (pc.PSend? || pc.PCall? || pc.PNext?)
    requires pc.PSend? ==> sh.net.conn.Some?
    ensures job.Publishing? && Advances(sh, t, Thread(job, P(pc)), StepPublish(sh, t, job, pc, Choice(false, 0)))
  {
    hide Settled, SubscriberAt;
  }

  lemma LoopAdvances(sh: Shared, t: Tid, job: Job, pc: LoopPc)
    requires Local(sh, t, Thread(job, L(pc))) && Free(sh, t) && !sh.panicked && !pc.LWait?
    ensures job.Looping? && Advances(sh, t, Thread(job, L(pc)), StepLoop(sh, t, job, pc, Choice(true, 0)))
  {
    hide Settled, SubscriberAt;
  }

  lemma RemoveAdvances(sh: Shared, t: Tid, job: Job, pc: RemovePc)
    requires Local(sh, t, Thread(job, M(pc))) && Free(sh, t) && !sh.panicked && !pc.MLock?
    ensures job.Removing? && Advances(sh, t, Thread(job, M(pc)), StepRemove(sh, t, job, pc))
  {
    hide Settled, SubscriberAt;
  }

  lemma PlanAdvances(sh: Shared, t: Tid, th: Thread)
    requires Local(sh, t, th) && Free(sh, t) && !sh.panicked && Busy(th)
    requires th.pc == P(PSend) ==> sh.net.conn.Some?
    ensures Advances(sh, t, th, StepThread(sh, t, th, Plan(th)))
  {
    hide Local, Advances, StepReconnect, StepClose, StepPublish, StepLoop, StepRemove;
    match th.pc {
      case R(r) =>
        if r.RFast? || r.RUnlock? { ReturnAdvances(sh, t, th.job, r); }
        else if r.RSet? { InstallAdvances(sh, t, th.job, r.conn); }
        else if r.RReplay? { ReplayAdvances(sh, t, th.job, r.start, r.seen); }
        else if r.RNested? || r.RNestedLock? || r.RNestedSend? { NestedAdvances(sh, t, th.job, r); }
        else { RedialAdvances(sh, t, th.job, r); }
      case C(c) => DropAdvances(sh, t, th.job, c);
      case P(p) => AttemptAdvances(sh, t, th.job, p);
      case L(l) => LoopAdvances(sh, t, th.job, l);
      case M(m) => RemoveAdvances(sh, t, th.job, m);
      case _ =>
    }
  }

  /** s' can follow s, and nothing a Close looks at has changed. */
  ghost predicate Keeps(s: State, s': State) {
    && Alive(s') && Leads(s, s') && Calmly(s.sh, s'.sh)
    && forall t :: t in s.threads ==> t in s'.threads && Kept(s.threads[t], s'.threads[t])
  }

  lemma KeepsTrans(s: State, s1: State, s2: State)
    requires Keeps(s, s1) && Keeps(s1, s2)
    ensures Keeps(s, s2)
  {
    hide Alive, Leads, LastAttempt;
    Trans(s, s1, s2);
  }

  lemma KeepsSame(s: State)
    requires Alive(s)
    ensures Keeps(s, s)
  {
    hide Inv;
    Same(s);
  }

  lemma Advance(s: State, t: Tid) returns (s': State)
    requires Alive(s) && t in s.threads && Busy(s.threads[t]) && Free(s.sh, t)
    requires s.threads[t].pc == P(PSend) ==> s.sh.net.conn.Some?
    ensures Keeps(s, s') && t in s'.threads && Free(s'.sh, t)
    ensures forall u :: u in s.threads && u != t ==> s'.threads[u] == s.threads[u]
    ensures Rank(|s'.sh.subs|, s'.threads[t]) < Rank(|s.sh.subs|, s.threads[t])
    ensures Redialed(s.sh, s.threads[t]) ==>
      s'.sh.net.conn == s.sh.net.conn && (s'.sh.lock.None? || s'.threads[t].pc.R?)
  {
    hide Global, Local, Reachable, Plan, StepThread, LastAttempt, Rank, Busy, Leads, Redialed;
    PlanAdvances(s.sh, t, s.threads[t]);
    var e := StepThread(s.sh, t, s.threads[t], Plan(s.threads[t])).value;
    hide Inv;
    s' := Act(s, Do(t, Plan(s.threads[t])));
    assert s' == Apply(s, t, e);
  }

  ghost predicate OwnerRedialed(s: State) {
    s.sh.lock.Some? && s.sh.lock.value in s.threads && Redialed(s.sh, s.threads[s.sh.lock.value])
  }

  lemma OwnerBusy(s: State) returns (t: Tid)
    requires Inv(s) && s.sh.lock.Some?
    ensures s.sh.lock == Some(t) && t in s.threads && Busy(s.threads[t]) && s.threads[t].pc != P(PSend)
  {
    t := s.sh.lock.value;
    assert Local(s.sh, t, s.threads[t]);
    hide ConnAt, PassAt, PublisherAt, SubscriberAt, Global;
  }

  function OwnerRank(s: State): nat {
    if s.sh.lock.Some? && s.sh.lock.value in s.threads then Rank(|s.sh.subs|, s.threads[s.sh.lock.value]) else 0
  }

  /** The owner of m.Mutex can go on until it lets go. */
  lemma {:induction false} Release(s: State) returns (s': State)
    requires Alive(s)
    ensures Keeps(s, s') && s'.sh.lock.None?
    ensures OwnerRedialed(s) ==> s'.sh.net.conn.Some?
    ensures forall u :: u in s.threads && s.sh.lock != Some(u) ==> s'.threads[u] == s.threads[u]
    decreases OwnerRank(s)
  {
    hide Inv, Reachable, Rank, LastAttempt, Leads, Busy, Kept;
    if s.sh.lock.None? {
      KeepsSame(s);
      return s;
    }
    var t := OwnerBusy(s);
    var s1 := Advance(s, t);
    if s1.sh.lock.None? {
      s' := s1;
    } else {
      s' := Release(s1);
      KeepsTrans(s, s1, s');
    }
  }

  // ---------------------------------------------------------------- reviving the connection

  lemma {:induction false} Bound(q: set<nat>) returns (b: nat)
    ensures forall x :: x in q ==> x < b
    decreases |q|
  {
    if q == {} { return 0; }
    var x :| x in q;
    b := Bound(q - {x});
    if b <= x { b := x + 1; }
    assert forall y :: y in q ==> y == x || y in q - {x};
  }

  /** s with a subscriber t, in the middle of reconnect, that s0 did not have. */
  ghost predicate Joined(s0: State, s: State, t: Tid, pc: RedialPc) {
    && Keeps(s0, s) && t !in s0.threads && t in s.threads && s.threads[t] == Thread(Subscribing(false), R(pc))
    && forall u :: u in s0.threads ==> s.threads[u] == s0.threads[u]
  }

  lemma Join(s: State, t: Tid) returns (s': State)
    requires Alive(s) && t !in s.threads
    ensures Joined(s, s', t, RFast) && s'.sh == s.sh
  {
    hide Inv, Reachable, LastAttempt, Leads;
    s' := Act(s, Start(t, CallSubscribe));
  }

  lemma Redial(s0: State, s: State, t: Tid, pc: RedialPc, e: Effect, pc': RedialPc) returns (s': State)
    requires Joined(s0, s, t, pc)
    requires StepReconnect(s.sh, t, Subscribing(false), pc, Choice(true, 0)) == Some(e)
    requires e.th == Thread(Subscribing(false), R(pc')) && Calmly(s.sh, e.sh)
    ensures Joined(s0, s', t, pc') && s'.sh == e.sh
  {
    hide Inv, Reachable, LastAttempt, Leads, StepReconnect;
    assert Next(s, Do(t, Choice(true, 0))) == Apply(s, t, e);
    s' := Act(s, Do(t, Choice(true, 0)));
    Trans(s0, s, s');
  }

  /** A new subscriber can bring back a connection. */
  lemma Revive(s: State) returns (s': State)
    requires Alive(s) && s.sh.lock.None? && s.sh.net.conn.None?
    ensures Keeps(s, s') && s'.sh.lock.None? && s'.sh.net.conn.Some?
    ensures forall u :: u in s.threads ==> s'.threads[u] == s.threads[u]
  {
    var t := Bound(s.threads.Keys);
    var job := Subscribing(false);
    var s1 := Join(s, t);
    hide Inv, Reachable, LastAttempt, Leads, Joined, Keeps, Alive;
    s1 := Redial(s, s1, t, RFast, Effect(s1.sh, Thread(job, R(RLock))), RLock);
    s1 := Redial(s, s1, t, RLock, Effect(s1.sh.(lock := Some(t)), Thread(job, R(RSlow))), RSlow);
    s1 := Redial(s, s1, t, RSlow, Effect(s1.sh, Thread(job, R(RDial))), RDial);
    s' := DialAgain(s, s1, t);
  }

  lemma DialAgain(s: State, from: State, t: Tid) returns (s': State)
    requires Joined(s, from, t, RDial) && from.sh.lock == Some(t) && !from.sh.panicked
    ensures Keeps(s, s') && s'.sh.lock.None? && s'.sh.net.conn.Some?
    ensures forall u :: u in s.threads ==> s'.threads[u] == s.threads[u]
  {
    hide Inv, Reachable, LastAttempt, Leads, Joined, Keeps, Alive;
    var job, s1 := Subscribing(false), from;
    var c := s1.sh.net.dialed;
    s1 := Redial(s, s1, t, RDial, Effect(s1.sh.(net := s1.sh.net.(dialed := c + 1)), Thread(job, R(RSet(c)))), RSet(c));
    var net := s1.sh.net.(conn := Some(c), installed := c + 1);
    var pass := RReplay(s1.sh.subs, {});
    s1 := Redial(s, s1, t, RSet(c), Effect(s1.sh.(net := net), Thread(job, R(pass))), pass);
    s' := Finish(s, s1, t, pass);
  }

  lemma Finish(s0: State, s: State, t: Tid, pc: RedialPc) returns (s': State)
    requires Joined(s0, s, t, pc) && s.sh.lock == Some(t) && s.sh.net.conn.Some?
    ensures Keeps(s0, s') && s'.sh.lock.None? && s'.sh.net.conn.Some?
    ensures forall u :: u in s0.threads ==> s'.threads[u] == s0.threads[u]
  {
    hide Inv, Reachable, LastAttempt, Leads;
    s' := Release(s);
    hide Alive;
    KeepsTrans(s0, s, s');
  }

  // ---------------------------------------------------------------- bringing one thread to rest

  /** A busy thread can go on until it is no longer busy. */
  lemma {:induction false} Settle(s: State, t: Tid) returns (s': State)
    requires Alive(s) && t in s.threads && Free(s.sh, t)
    ensures Keeps(s, s') && t in s'.threads && !Busy(s'.threads[t]) && s'.sh.lock.None?
    decreases Rank(|s.sh.subs|, s.threads[t])
  {
    hide Inv, Reachable, Rank, LastAttempt, Leads, Busy, Kept;
    if !Busy(s.threads[t]) {
      RestFree(s, t);
      KeepsSame(s);
      return s;
    }
    var s0 := s;
    if s.threads[t].pc == P(PSend) {
      s0 := Connected(s, t);
      SendRank(|s0.sh.subs|, |s.sh.subs|, s.threads[t]);
    } else {
      KeepsSame(s);
    }
    var s1 := Advance(s0, t);
    KeepsTrans(s, s0, s1);
    s' := Settle(s1, t);
    KeepsTrans(s, s1, s');
  }

  lemma SendRank(n: nat, m: nat, th: Thread)
    requires th.pc == P(PSend)
    ensures Rank(n, th) == Rank(m, th)
  {
  }

  lemma RestFree(s: State, t: Tid)
    requires Inv(s) && t in s.threads && Free(s.sh, t) && (!Busy(s.threads[t]) || s.threads[t].pc == P(PSend))
    ensures s.sh.lock.None?
  {
    assert Local(s.sh, t, s.threads[t]);
    hide ConnAt, PassAt, PublisherAt, SubscriberAt, Global;
  }

  /** A publisher about to send can be given a connection to send on. */
  lemma Connected(s: State, t: Tid) returns (s': State)
    requires Alive(s) && t in s.threads && Free(s.sh, t) && s.threads[t].pc == P(PSend)
    ensures Keeps(s, s') && t in s'.threads && s'.threads[t] == s.threads[t] && s'.sh.lock.None? && s'.sh.net.conn.Some?
  {
    RestFree(s, t);
    hide Inv;
    if s.sh.net.conn.Some? {
      KeepsSame(s);
      s' := s;
    } else {
      s' := Revive(s);
    }
  }

  /** Whoever owns the mutex, every thread can be brought to its next wait or its return. */
  lemma BringToRest(s: State, t: Tid) returns (s': State)
    requires Alive(s) && t in s.threads
    ensures Keeps(s, s') && t in s'.threads && !Busy(s'.threads[t]) && s'.sh.lock.None?
  {
    hide Alive, Leads, LastAttempt, Busy;
    var s1 := Release(s);
    s' := Settle(s1, t);
    KeepsTrans(s, s1, s');
  }
}
