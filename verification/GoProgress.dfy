/** How long the Go client's mutex can be held. */
module GoProgress {
  import opened Base
  import opened GoThreads
  import opened GoThreadsInv
  import opened GoThreadsRuns
  import opened GoTheorems
  import opened GoSchedules

  /** The tokens the owner of m.Mutex may still have to send in its resubscription pass. */
  function Unsent(subs: set<Token>, pc: Pc): set<Token> {
    match pc
    case R(r) =>
      if r.RSlow? || r.RDial? || r.RSet? then subs
      else if r.RReplay? then subs - r.seen
      else if r.RNested? || r.RNestedSend? then subs - r.seen - {r.token}
      else {}
    case _ => {}
  }

  function Stage(pc: Pc): nat {
    match pc
    case R(r) =>
      if r.RSlow? then 5 else if r.RDial? || r.RNested? then 4 else if r.RSet? || r.RNestedSend? then 3
      else if r.RReplay? then 2 else 1
    case C(c) => if c.CConn? then 3 else if c.CClear? then 2 else 1
    case L(l) => if l.LPing? then 2 else 1
    case M(m) => if m.MDelete? then 2 else 1
    case _ => 0
  }

  /** Bounds the steps to the release of m.Mutex when the registry holds subs. */
  function HoldRank(subs: set<Token>, pc: Pc): nat {
    3 * |Unsent(subs, pc)| + Stage(pc)
  }

  lemma {:induction false} Subset(q: set<Token>, r: set<Token>)
    requires q <= r
    ensures |q| <= |r|
    decreases |q|
  {
    if q != {} {
      var k :| k in q;
      Subset(q - {k}, r - {k});
    }
  }

  /** A token more in the registry costs at most the three steps of its resubscription. */
  lemma OneMore(subs: set<Token>, u: Token, pc: Pc)
    ensures HoldRank(subs + {u}, pc) <= HoldRank(subs, pc) + 3
  {
    assert Unsent(subs + {u}, pc) <= Unsent(subs, pc) + {u};
    hide Unsent;
    Subset(Unsent(subs + {u}, pc), Unsent(subs, pc) + {u});
  }

  lemma RankBound(subs: set<Token>, pc: Pc)
    ensures HoldRank(subs, pc) <= 3 * |subs| + 5
  {
    assert Unsent(subs, pc) <= subs;
    Subset(Unsent(subs, pc), subs);
  }

  // ---------------------------------------------------------------- one step

  /** The step releases the mutex, or does something towards it: it sends a token or reaches a later stage. */
  predicate Nearer(sh: Shared, pc: Pc, e: Effect) {
    e.sh.lock.Some? ==>
      && e.sh.subs <= sh.subs
      && var q, q' := Unsent(sh.subs, pc), Unsent(e.sh.subs, e.th.pc);
         (q' <= q && Stage(e.th.pc) < Stage(pc)) || (q' < q && Stage(e.th.pc) <= Stage(pc) + 2)
  }

  lemma NearerRank(sh: Shared, pc: Pc, e: Effect)
    requires Nearer(sh, pc, e) && e.sh.lock.Some?
    ensures HoldRank(e.sh.subs, e.th.pc) < HoldRank(sh.subs, pc)
  {
    var q, q' := Unsent(sh.subs, pc), Unsent(e.sh.subs, e.th.pc);
    Subset(q', q);
    if q' < q {
      var k :| k in q && k !in q';
      Subset(q', q - {k});
    }
  }

  lemma RedialNearer(sh: Shared, t: Tid, job: Job, pc: RedialPc, ch: Choice)
    requires sh.net.conn.None? ==> !pc.RNested? && !pc.RNestedSend?
    requires !pc.RFast? && !pc.RLock? && !pc.RNestedLock? && StepReconnect(sh, t, job, pc, ch).Some?
    ensures Nearer(sh, R(pc), StepReconnect(sh, t, job, pc, ch).value)
  {
    hide AfterReconnect;
    if pc.RReplay? && ch.ok { assert ch.token in sh.subs - pc.seen; }
  }

  lemma OwnerPlace(sh: Shared, t: Tid, th: Thread)
    requires Local(sh, t, th) && sh.lock == Some(t)
    ensures Holds(th.pc)
    ensures th.pc.R? ==> !th.pc.r.RNestedLock? && (th.pc.r.RNested? || th.pc.r.RNestedSend? ==> sh.net.conn.Some?)
  {
    hide Settled, PassAt, PublisherAt, SubscriberAt;
  }

  /** Every step of the owner, whatever the broker answers, brings it nearer to its release. */
  lemma OwnerNearer(sh: Shared, t: Tid, th: Thread, ch: Choice)
    requires Local(sh, t, th) && sh.lock == Some(t) && StepThread(sh, t, th, ch).Some?
    ensures Nearer(sh, th.pc, StepThread(sh, t, th, ch).value)
  {
    OwnerPlace(sh, t, th);
    hide Local, StepReconnect, StepClose, StepPublish, StepSubscribe, StepLoop, StepRemove, StepShutdown, Nearer;
    match th.pc {
      case R(r) => RedialNearer(sh, t, th.job, r, ch);
      case C(c) => DropNearer(sh, t, th.job, c);
      case L(l) => PingNearer(sh, t, th.job, l, ch);
      case M(m) => if th.job.Removing? { RemoveNearer(sh, t, th.job, m); }
    }
  }

  lemma DropNearer(sh: Shared, t: Tid, job: Job, pc: DropPc)
    requires !pc.CLock?
    ensures Nearer(sh, C(pc), StepClose(sh, t, job, pc).value)
  {
  }

  lemma PingNearer(sh: Shared, t: Tid, job: Job, pc: LoopPc, ch: Choice)
    requires pc.LPing? || pc.LUnlock?
    ensures Nearer(sh, L(pc), StepLoop(sh, t, job, pc, ch).value)
  {
  }

  lemma RemoveNearer(sh: Shared, t: Tid, job: Job, pc: RemovePc)
    requires job.Removing? && !pc.MLock?
    ensures Nearer(sh, M(pc), StepRemove(sh, t, job, pc).value)
  {
  }

  // ---------------------------------------------------------------- runs

  predicate Own(s: State, a: Action, t: Tid) {
    a.Do? && a.tid == t && Step(s, a).Some?
  }

  /** The action registers a token. */
  predicate Registers(s: State, a: Action) {
    !(Next(s, a).sh.subs <= s.sh.subs)
  }

  /** Steps of t in the run. */
  function OwnSteps(s: State, acts: seq<Action>, t: Tid): nat
    decreases |acts|
  {
    if acts == [] then 0 else (if Own(s, acts[0], t) then 1 else 0) + OwnSteps(Next(s, acts[0]), acts[1..], t)
  }

  function Registrations(s: State, acts: seq<Action>): nat
    decreases |acts|
  {
    if acts == [] then 0 else (if Registers(s, acts[0]) then 1 else 0) + Registrations(Next(s, acts[0]), acts[1..])
  }

  predicate OwnsThroughout(s: State, acts: seq<Action>, t: Tid)
    decreases |acts|
  {
    s.sh.lock == Some(t) && (acts == [] || OwnsThroughout(Next(s, acts[0]), acts[1..], t))
  }

  ghost function RankOf(s: State, t: Tid): nat {
    if t in s.threads then HoldRank(s.sh.subs, s.threads[t].pc) else 0
  }

  /** A step of another thread leaves the owner where it is. */
  lemma OthersStep(s: State, a: Action, t: Tid)
    requires Inv(s) && s.sh.lock == Some(t) && t in s.threads && !Own(s, a, t)
    ensures t in Next(s, a).threads && Next(s, a).threads[t].pc == s.threads[t].pc
    ensures Next(s, a).sh.subs == s.sh.subs || exists u :: Next(s, a).sh.subs == s.sh.subs + {u}
  {
    assert Local(s.sh, t, s.threads[t]);
    hide Global, Local, StepThread;
    if a.Do? && Step(s, a).Some? { ThreadGood(s.sh, a.tid, s.threads[a.tid], a.choice); }
  }

  lemma HoldStep(s: State, a: Action, t: Tid)
    requires Inv(s) && s.sh.lock == Some(t) && Next(s, a).sh.lock == Some(t)
    ensures (if Own(s, a, t) then 1 else 0) + RankOf(Next(s, a), t) <=
            RankOf(s, t) + (if Registers(s, a) then 3 else 0)
  {
    assert t in s.threads;
    if Own(s, a, t) {
      OwnerNearer(s.sh, t, s.threads[t], a.choice) by { assert Local(s.sh, t, s.threads[t]); }
      NearerRank(s.sh, s.threads[t].pc, StepThread(s.sh, t, s.threads[t], a.choice).value);
    } else {
      OthersStep(s, a, t);
      hide Inv, HoldRank, Step;
      if Next(s, a).sh.subs != s.sh.subs {
        var u :| Next(s, a).sh.subs == s.sh.subs + {u};
        OneMore(s.sh.subs, u, s.threads[t].pc);
      }
    }
  }

  /** While a thread owns the mutex it takes a bounded number of steps, whatever the broker answers and
      whatever the others do: five, and three more for each token registered before or meanwhile. */
  lemma {:induction false} HoldIsBounded(s: State, acts: seq<Action>, t: Tid)
    requires Inv(s) && OwnsThroughout(s, acts, t)
    ensures OwnSteps(s, acts, t) <= 3 * |s.sh.subs| + 5 + 3 * Registrations(s, acts)
  {
    HoldRun(s, acts, t);
    RankBound(s.sh.subs, s.threads[t].pc);
  }

  lemma {:induction false} HoldRun(s: State, acts: seq<Action>, t: Tid)
    requires Inv(s) && OwnsThroughout(s, acts, t)
    ensures OwnSteps(s, acts, t) + RankOf(Run(s, acts), t) <= RankOf(s, t) + 3 * Registrations(s, acts)
    decreases |acts|
  {
    hide Inv, Own, Registers, RankOf, Next;
    if acts != [] {
      HoldStep(s, acts[0], t);
      StepKeeps(s, acts[0]);
      HoldRun(Next(s, acts[0]), acts[1..], t);
    }
  }

  /** And it never has to wait: in every state some step of its own is enabled. */
  lemma OwnerCanStep(s: State, t: Tid)
    requires Reachable(s) && !s.sh.panicked && s.sh.lock == Some(t)
    ensures exists ch :: Step(s, Do(t, ch)).Some?
  {
    ReachableInv(s);
    var u := OwnerBusy(s);
    var th := s.threads[t];
    PlanAdvances(s.sh, t, th) by { assert Local(s.sh, t, th); }
    hide Inv, Reachable, StepThread, Plan;
    assert Step(s, Do(t, Plan(th))).Some?;
  }
}
