/** Locks, calls and connections: what every step of the Go client keeps. */
module GoThreadsInv {
  import opened Base
  import opened GoThreads

  predicate Holds(pc: Pc) {
    match pc
    case R(r) => !r.RFast? && !r.RLock?
    case C(c) => !c.CLock?
    case L(l) => l.LPing? || l.LUnlock?
    case M(m) => !m.MLock?
    case _ => false
  }

  predicate HoldsAbort(pc: Pc) {
    match pc
    case P(p) => p.PRegister? || p.PDelete?
    case X(x) => x.XAborts?
    case _ => false
  }

  /** Which program points a call can be at. */
  predicate JobAt(th: Thread) {
    match (th.job, th.pc)
    case (Connecting, R(_)) => true
    case (Connecting, _) => false
    case (_, Done) => true
    case (Looping, pc) => pc.R? || pc.C? || pc.L?
    case (Publishing(_, _, _), pc) => pc.R? || pc.C? || pc.P?
    case (Subscribing(retrying), pc) => pc.R? || (pc.C? && retrying) || (pc.S? && !retrying)
    case (Removing(_, _), pc) => pc.M?
    case (Closing, pc) => pc.C? || pc.X?
    case (Losing, pc) => pc.C?
  }

  /** Thread 0 is Connect and then the background loop; every other thread is an API call or a callback. */
  predicate Placed(t: Tid, th: Thread) {
    JobAt(th) && ((th.job.Connecting? || th.job.Looping?) <==> t == 0)
  }

  ghost predicate AllClosedBelow(n: Net, bound: nat) {
    forall c: ConnId :: c < bound ==> c in n.closed
  }

  /** Every connection handed out is closed, except the current one. */
  ghost predicate Settled(n: Net) {
    n.dialed == n.installed && OnlyOpen(n.dialed, n.closed, n.conn)
  }

  /** The connections as seen by the owner of m.Mutex. */
  ghost predicate ConnAt(n: Net, pc: Pc) {
    match pc
    case R(RDial) => n.conn.None? && Settled(n)
    case R(RSet(c)) => n.conn.None? && c == n.installed && n.dialed == c + 1 && c !in n.closed && AllClosedBelow(n, c)
    case R(RReplay(_, _)) => n.conn.Some? && Settled(n)
    case R(RNested(_, _, _)) => n.conn.Some? && Settled(n)
    case R(RNestedSend(_, _, _)) => n.conn.Some? && Settled(n)
    case R(RNestedLock(_, _, _)) => false
    case C(CClear) => n.conn.Some? && n.dialed == n.installed && AllClosedBelow(n, n.dialed)
    case C(CUnlock) => n.conn.None? && Settled(n)
    case R(RUnlock(err)) => Settled(n) && (!err ==> n.conn.Some?)
    case L(LUnlock(err)) => Settled(n) && (err ==> n.conn.Some?)
    case _ => Settled(n)
  }

  ghost predicate NetInv(n: Net) {
    (forall c :: c in n.closed ==> c < n.dialed) && (n.conn.Some? ==> n.installed == n.conn.value + 1)
  }

  /** Every attempt that reached a connection used one below bound. */
  ghost predicate Below(tries: seq<Attempt>, bound: nat) {
    forall i :: 0 <= i < |tries| && tries[i].conn.Some? ==> tries[i].conn.value < bound
  }

  ghost predicate AllFailed(tries: seq<Attempt>) {
    forall i :: 0 <= i < |tries| ==> !tries[i].acked
  }

  /** Attempts use ever newer connections, and only the last can be acknowledged. */
  ghost predicate Forward(tries: seq<Attempt>) {
    && (forall i, j :: 0 <= i < j < |tries| && tries[i].conn.Some? && tries[j].conn.Some? ==>
          tries[i].conn.value < tries[j].conn.value)
    && (forall i :: 0 <= i < |tries| - 1 ==> !tries[i].acked)
  }

  predicate Failed(tries: seq<Attempt>) {
    tries != [] && !tries[|tries| - 1].acked
  }

  /** The current connection, if any, is newer than every connection tried so far. */
  ghost predicate Fresh(n: Net, tries: seq<Attempt>) {
    n.conn.Some? ==> Below(tries, n.conn.value)
  }

  /** A publisher's history at each program point. */
  ghost predicate PublisherAt(n: Net, job: Job, pc: Pc)
    requires job.Publishing?
  {
    var Publishing(delays, tries, signalled) := job;
    && Forward(tries)
    && Below(tries, n.installed)
    && (signalled ==> pc == P(PEnd) || pc == P(PDelete) || pc == Done)
    && match pc
       case R(_) => AllFailed(tries) && |tries| <= delays && Fresh(n, tries)
       case C(c) => AllFailed(tries) && 0 < |tries| <= delays + 1 && (c.CUnlock? ==> Fresh(n, tries))
       case P(PStart) => tries == []
       case P(PRegister) => tries == []
       case P(PSend) => AllFailed(tries) && |tries| <= delays && Fresh(n, tries)
       case P(PCall(c)) => AllFailed(tries) && |tries| <= delays && c < n.installed && Below(tries, c)
       case P(PNext) => AllFailed(tries) && 0 < |tries| <= delays + 1 && Fresh(n, tries)
       case P(PWait) => AllFailed(tries) && 0 < |tries| <= delays && Fresh(n, tries)
       case _ =>
         0 < |tries| <= delays + 1 && (if signalled then Failed(tries) else Failed(tries) ==> |tries| == delays + 1)
  }

  /** A publisher is listed in pubAborts.events from its registration to its cleanup, unless signalled. */
  predicate Listed(th: Thread) {
    th.job.Publishing? && !th.job.signalled && th.pc != P(PStart) && th.pc != P(PRegister) && th.pc != Done
  }

  /** QueueSubscribe has put its token in the map. */
  predicate Registered(th: Thread)
    requires th.job.Subscribing?
  {
    th.job.retrying || th.pc == Done
  }

  ghost predicate Gone(q: seq<Removal>, k: Token) {
    exists i :: 0 <= i < |q| && q[i].token == k
  }

  ghost predicate SubscriberAt(sh: Shared, t: Tid, th: Thread)
    requires th.job.Subscribing?
  {
    if Registered(th) then t in sh.subs || Gone(sh.removed, t) else t !in sh.subs && !Gone(sh.removed, t)
  }

  /** A resubscription pass has sent registered tokens only. All connections before the current one have
      been replayed; outside a pass the current one has, too. */
  ghost predicate PassAt(sh: Shared, pc: Pc) {
    match pc
    case R(RReplay(start, seen)) => start + seen <= sh.subs && MidPass(sh)
    case R(RNested(k, start, seen)) => start + seen + {k} <= sh.subs && MidPass(sh)
    case R(RNestedSend(k, start, seen)) => start + seen + {k} <= sh.subs && MidPass(sh)
    case _ => |sh.replays| == sh.net.installed
  }

  ghost predicate MidPass(sh: Shared) {
    sh.net.conn == Some(|sh.replays|)
  }

  ghost predicate Distinct(q: seq<Removal>) {
    forall i, j :: 0 <= i < j < |q| ==> q[i].token != q[j].token
  }

  /** Pass number i is for connection number i, so no connection is skipped or replayed twice. Each pass
      covers the tokens registered when it began, nothing that was not registered when it ended, and
      nothing removed before that. */
  ghost predicate PassesOk(replays: seq<Replay>) {
    forall i :: 0 <= i < |replays| ==>
      && replays[i].conn == i
      && replays[i].start <= replays[i].sent <= replays[i].end && replays[i].sent !! replays[i].gone
  }

  /** What holds of thread t while the others run. */
  ghost predicate Local(sh: Shared, t: Tid, th: Thread) {
    && Placed(t, th)
    && (Holds(th.pc) <==> sh.lock == Some(t))
    && (HoldsAbort(th.pc) <==> sh.abortLock == Some(t))
    && (Listed(th) <==> t in sh.events)
    && (th.job.Publishing? ==> PublisherAt(sh.net, th.job, th.pc))
    && (th.job.Subscribing? ==> SubscriberAt(sh, t, th))
    && (th.job.Removing? ==> (th.job.found <==> Removal(th.job.token, t) in sh.removed))
    && (t == 0 ==> (th.pc == Done <==> sh.stopped))
    && (th.pc == X(XNil) ==> sh.stopped)
    && (Holds(th.pc) ==> ConnAt(sh.net, th.pc) && PassAt(sh, th.pc))
  }

  /** What holds of the shared state between steps. */
  ghost predicate Global(sh: Shared) {
    && NetInv(sh.net)
    && (!sh.chan ==> sh.stopped)
    && (sh.lock.None? ==> Settled(sh.net))
    && (forall k :: k in sh.subs ==> !Gone(sh.removed, k))
    && Distinct(sh.removed)
    && PassesOk(sh.replays)
    && (sh.lock.None? ==> |sh.replays| == sh.net.installed)
  }

  /** Shared state names only threads that exist. */
  ghost predicate Known(s: State) {
    && (s.sh.lock.Some? ==> s.sh.lock.value in s.threads)
    && (s.sh.abortLock.Some? ==> s.sh.abortLock.value in s.threads)
    && s.sh.events + s.sh.subs <= s.threads.Keys
    && (forall r :: r in s.sh.removed ==> r.token in s.threads && r.caller in s.threads)
    && 0 in s.threads
  }

  ghost predicate Inv(s: State) {
    Global(s.sh) && Known(s) && forall t :: t in s.threads ==> Local(s.sh, t, s.threads[t])
  }

  // ---------------------------------------------------------------- rely and guarantee

  predicate SameFor(before: Option<Tid>, after: Option<Tid>, t: Tid) {
    after == before || (before.None? && after == Some(t)) || (before == Some(t) && after.None?)
  }

  predicate NetMove(n: Net, n': Net) {
    && n.installed <= n'.installed && n.dialed <= n'.dialed && n.closed <= n'.closed
    && (n'.conn.None? || n'.conn == n.conn || (n'.conn == Some(n.installed) && n'.installed == n.installed + 1))
  }

  /** What a step of thread t may do to the shared state. */
  ghost predicate Guarantee(sh: Shared, sh': Shared, t: Tid) {
    && SameFor(sh.lock, sh'.lock, t)
    && SameFor(sh.abortLock, sh'.abortLock, t)
    && sh'.stopped == sh.stopped
    && (sh'.events == sh.events || sh'.events == sh.events + {t} || sh'.events == sh.events - {t})
    && (if sh.lock == Some(t) then NetMove(sh.net, sh'.net) else sh'.net == sh.net && sh'.replays == sh.replays)
    && (|| (sh'.subs == sh.subs && sh'.removed == sh.removed)
        || (sh'.subs == sh.subs + {t} && sh'.removed == sh.removed)
        || (sh.lock == Some(t) &&
            exists k :: k in sh.subs && sh'.subs == sh.subs - {k} && sh'.removed == sh.removed + [Removal(k, t)]))
  }

  /** Another thread keeps what it knows. */
  lemma Stable(sh: Shared, sh': Shared, t: Tid, u: Tid, th: Thread)
    requires Guarantee(sh, sh', t) && Local(sh, u, th) && u != t
    ensures Local(sh', u, th)
  {
    if sh'.subs != sh.subs && sh'.subs != sh.subs + {t} {
      var k :| k in sh.subs && sh'.subs == sh.subs - {k} && sh'.removed == sh.removed + [Removal(k, t)];
      GoneAfter(sh.removed, Removal(k, t), u);
      assert forall r :: r in sh'.removed <==> r in sh.removed || r == Removal(k, t);
    }
  }

  lemma GoneAfter(q: seq<Removal>, r: Removal, k: Token)
    ensures Gone(q + [r], k) <==> Gone(q, k) || r.token == k
  {
    var q' := q + [r];
    if r.token == k { assert q'[|q|].token == k; }
    if Gone(q, k) { var i :| 0 <= i < |q| && q[i].token == k; assert q'[i].token == k; }
  }

  /** What a step of thread t must establish. */
  ghost predicate Good(sh: Shared, t: Tid, e: Option<Effect>) {
    e.Some? ==> Guarantee(sh, e.value.sh, t) && Global(e.value.sh) && Local(e.value.sh, t, e.value.th)
  }

  lemma FastGood(sh: Shared, t: Tid, job: Job, ch: Choice)
    requires Global(sh) && Local(sh, t, Thread(job, R(RFast)))
    ensures Good(sh, t, StepReconnect(sh, t, job, RFast, ch))
  {
  }

  lemma UnlockGood(sh: Shared, t: Tid, job: Job, err: bool, ch: Choice)
    requires Global(sh) && Local(sh, t, Thread(job, R(RUnlock(err))))
    ensures Good(sh, t, StepReconnect(sh, t, job, RUnlock(err), ch))
  {
  }

  lemma LockGood(sh: Shared, t: Tid, job: Job, pc: RedialPc, ch: Choice)
    requires pc.RLock? || pc.RSlow?
    requires Global(sh) && Local(sh, t, Thread(job, R(pc)))
    ensures Good(sh, t, StepReconnect(sh, t, job, pc, ch))
  {
  }

  lemma DialGood(sh: Shared, t: Tid, job: Job, ch: Choice)
    requires Global(sh) && Local(sh, t, Thread(job, R(RDial)))
    ensures Good(sh, t, StepReconnect(sh, t, job, RDial, ch))
  {
  }

  lemma InstallGood(sh: Shared, t: Tid, job: Job, pc: RedialPc, ch: Choice)
    requires pc.RSet?
    requires Global(sh) && Local(sh, t, Thread(job, R(pc)))
    ensures Good(sh, t, StepReconnect(sh, t, job, pc, ch))
  {
  }

  lemma ReplayGood(sh: Shared, t: Tid, job: Job, pc: RedialPc, ch: Choice)
    requires pc.RReplay?
    requires Global(sh) && Local(sh, t, Thread(job, R(pc)))
    ensures Good(sh, t, StepReconnect(sh, t, job, pc, ch))
  {
  }

  lemma NestedGood(sh: Shared, t: Tid, job: Job, pc: RedialPc, ch: Choice)
    requires pc.RNested? || pc.RNestedLock? || pc.RNestedSend?
    requires Global(sh) && Local(sh, t, Thread(job, R(pc)))
    ensures Good(sh, t, StepReconnect(sh, t, job, pc, ch))
  {
  }

  lemma CloseGood(sh: Shared, t: Tid, job: Job, pc: DropPc)
    requires Global(sh) && Local(sh, t, Thread(job, C(pc)))
    ensures Good(sh, t, StepClose(sh, t, job, pc))
  {
    if pc.CConn? || pc.CClear? { DropGood(sh, t, job, pc); }
  }

  lemma DropGood(sh: Shared, t: Tid, job: Job, pc: DropPc)
    requires pc.CConn? || pc.CClear?
    requires Global(sh) && Local(sh, t, Thread(job, C(pc)))
    ensures Good(sh, t, StepClose(sh, t, job, pc))
  {
  }

  lemma AttemptGood(sh: Shared, t: Tid, job: Job, pc: PublishPc, ch: Choice)
    requires pc.PSend? || pc.PCall? || pc.PNext? || pc.PWait?
    requires job.Publishing? && Global(sh) && Local(sh, t, Thread(job, P(pc)))
    ensures Good(sh, t, StepPublish(sh, t, job, pc, ch))
  {
  }

  lemma EnlistGood(sh: Shared, t: Tid, job: Job, pc: PublishPc, ch: Choice)
    requires pc.PStart? || pc.PRegister? || pc.PEnd? || pc.PDelete?
    requires job.Publishing? && Global(sh) && Local(sh, t, Thread(job, P(pc)))
    ensures Good(sh, t, StepPublish(sh, t, job, pc, ch))
  {
  }

  lemma SubscribeGood(sh: Shared, t: Tid, job: Job, pc: SubscribePc, ch: Choice)
    requires job.Subscribing? && Global(sh) && Local(sh, t, Thread(job, S(pc)))
    ensures Good(sh, t, StepSubscribe(sh, t, job, pc, ch))
  {
  }

  lemma LoopGood(sh: Shared, t: Tid, job: Job, pc: LoopPc, ch: Choice)
    requires Global(sh) && Local(sh, t, Thread(job, L(pc)))
    ensures Good(sh, t, StepLoop(sh, t, job, pc, ch))
  {
  }

  lemma RemoveGood(sh: Shared, t: Tid, job: Job, pc: RemovePc)
    requires job.Removing? && Global(sh) && Local(sh, t, Thread(job, M(pc)))
    ensures Good(sh, t, StepRemove(sh, t, job, pc))
  {
    if pc.MDelete? { DeleteGood(sh, t, job); }
  }

  lemma DeleteGood(sh: Shared, t: Tid, job: Job)
    requires job.Removing? && Global(sh) && Local(sh, t, Thread(job, M(MDelete)))
    ensures Good(sh, t, StepRemove(sh, t, job, MDelete))
  {
    if job.token in sh.subs {
      forall k ensures Gone(sh.removed + [Removal(job.token, t)], k) <==> Gone(sh.removed, k) || job.token == k {
        GoneAfter(sh.removed, Removal(job.token, t), k);
      }
    }
  }

  lemma ShutdownGood(sh: Shared, t: Tid, job: Job, pc: ShutdownPc)
    requires Global(sh) && Local(sh, t, Thread(job, X(pc)))
    ensures Good(sh, t, StepShutdown(sh, t, job, pc))
  {
  }

  // ---------------------------------------------------------------- steps that are not one thread's own

  lemma BeginGood(sh: Shared, t: Tid, call: Call)
    requires Global(sh)
    requires t != 0 && t !in sh.events && t !in sh.subs && sh.lock != Some(t) && sh.abortLock != Some(t)
    requires forall r :: r in sh.removed ==> r.token != t && r.caller != t
    ensures Local(sh, t, Begin(call))
  {
  }

  lemma AbortGood(sh: Shared, p: Tid, th: Thread)
    requires Global(sh) && Local(sh, p, th) && th.job.Publishing? && th.pc == P(PWait)
    ensures var sh' := sh.(events := sh.events - {p});
      && Global(sh') && Guarantee(sh, sh', p)
      && Local(sh', p, Thread(th.job.(signalled := true), P(PEnd)))
  {
  }

  lemma StopGood(sh: Shared, t: Tid, th: Thread)
    requires Global(sh) && Local(sh, t, th)
    ensures Global(sh.(stopped := true))
    ensures t != 0 ==> Local(sh.(stopped := true), t, th)
    ensures th == Thread(Looping, L(LWait)) ==> Local(sh.(stopped := true), t, Thread(Looping, Done))
    ensures th == Thread(Closing, X(XSend)) ==> Local(sh.(stopped := true), t, Thread(Closing, X(XNil)))
  {
  }
}
