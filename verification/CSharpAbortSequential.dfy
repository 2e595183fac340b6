/** A call of the interleaved C# client that nobody interferes with does what the same call does in the machine
    that executes one call at a time; and Close always returns. */
module CSharpAbortSequential {
  import opened Base
  import opened CSharpAbort
  import opened CSharpAbortTheorems
  import opened RegistryExact
  import Registry
  import RegistryInv
  import Retry

  // ---------------------------------------------------------------- one thread alone

  predicate OnlyBy(acts: seq<Action>, t: Tid) {
    forall i :: 0 <= i < |acts| ==> acts[i].Do? && acts[i].tid == t
  }

  /** t can go from s to s' while nobody else does anything. */
  ghost predicate Alone(s: State, s': State, t: Tid) {
    exists acts :: OnlyBy(acts, t) && Run(s, acts) == s'
  }

  lemma AloneSame(s: State, t: Tid)
    ensures Alone(s, s, t)
  {
    assert Run(s, []) == s && OnlyBy([], t);
  }

  lemma AloneStep(s: State, s1: State, t: Tid, ok: bool) returns (s2: State)
    requires Alone(s, s1, t)
    ensures s2 == DoStep(s1, t, ok) && Alone(s, s2, t)
  {
    hide DoStep;
    s2 := DoStep(s1, t, ok);
    var acts :| OnlyBy(acts, t) && Run(s, acts) == s1;
    var a := Do(t, ok);
    RunAppend(s, acts, [a]);
    assert Run(s1, [a]) == Run(s2, [a][1..]) == s2 && OnlyBy(acts + [a], t);
  }

  /** s1 after one more step of t, with the effect e. */
  lemma Then(s: State, s1: State, t: Tid, ok: bool, e: Effect) returns (s2: State)
    requires Alone(s, s1, t) && t in s1.threads && s1.threads[t].pc != SetAbort && s1.threads[t].pc != StopLoop
    requires StepThread(s1.sh, t, s1.threads[t], ok) == Some(e)
    ensures s2 == State(e.sh, s1.threads[t := e.th]) && Alone(s, s2, t)
  {
    hide StepThread, Alone;
    s2 := AloneStep(s, s1, t, ok);
  }

  function Reconnected(sh: Shared, dial: bool): Shared {
    if sh.conn then sh else sh.(abort := false, conn := dial)
  }

  lemma Reconnects(s: State, s1: State, t: Tid, job: Job, dial: bool) returns (s2: State)
    requires Alone(s, s1, t) && s1.sh.lock.None? && t in s1.threads && s1.threads[t] == Thread(job, Fast)
    ensures Alone(s, s2, t) && s2.sh == Reconnected(s1.sh, dial)
    ensures s2.threads == s1.threads[t := AfterReconnect(job, s1.sh.conn || dial)]
  {
    hide Alone, AfterReconnect;
    if s1.sh.conn {
      s2 := Then(s, s1, t, dial, Effect(s1.sh, AfterReconnect(job, true)));
    } else {
      s2 := Then(s, s1, t, dial, Effect(s1.sh, Thread(job, Enter)));
      s2 := Then(s, s2, t, dial, Effect(s1.sh.(abort := false, lock := Some(t)), Thread(job, Dial)));
      s2 := Then(s, s2, t, dial, Effect(s1.sh.(abort := false, conn := dial), AfterReconnect(job, dial)));
    }
  }

  // ---------------------------------------------------------------- the sequential machine

  /** Both have a connection or neither, and both have records or neither. */
  predicate Agrees(sh: Shared, r: Registry.State) {
    (sh.conn <==> r.conn.Some?) && (sh.registry <==> r.subs != map[])
  }

  lemma ReconnectAgrees(env: Registry.Env, r: Registry.State, sh: Shared)
    requires Registry.Fair(env) && RegistryInv.Inv(env, r) && Agrees(sh, r)
    ensures var q := Registry.Reconnect(env, r);
      && Agrees(Reconnected(sh, env.ok(|r.broker.log|)), q.state)
      && (q.ok <==> sh.conn || env.ok(|r.broker.log|))
      && RegistryInv.Inv(env, q.state)
  {
    ReconnectExactly(env, r);
    RegistryInv.ReconnectKeeps(env, r);
    hide Registry.Reconnect, RegistryInv.Inv;
    SameRecords(r, Registry.Reconnect(env, r).state);
  }

  lemma SameRecords(r: Registry.State, r': Registry.State)
    requires r'.subs.Keys == r.subs.Keys
    ensures r.subs == map[] <==> r'.subs == map[]
  {
    assert r.subs == map[] <==> r.subs.Keys == {};
    assert r'.subs == map[] <==> r'.subs.Keys == {};
  }

  lemma CloseAgrees(env: Registry.Env, r: Registry.State, sh: Shared)
    requires Registry.Fair(env) && Agrees(sh, r)
    ensures Agrees(sh.(conn := false), Registry.Close(env, r))
  {
    RegistryInv.CloseShape(env, r);
    hide Registry.Close;
    SameRecords(r, Registry.Close(env, r));
  }

  // ---------------------------------------------------------------- publishing

  lemma AttemptAlone(env: Registry.Env, r: Registry.State, s: State, s1: State, t: Tid, job: Job) returns (s2: State)
    requires Registry.Fair(env) && RegistryInv.Inv(env, r) && Agrees(s1.sh, r) && job.Publishing?
    requires Alone(s, s1, t) && s1.sh.lock.None? && !s1.sh.abort
    requires t in s1.threads && s1.threads[t] == Thread(job, Fast)
    ensures var p := Registry.PublishOnce(env, r);
      && Alone(s, s2, t) && Agrees(s2.sh, p.state) && s2.sh == s1.sh.(conn := s2.sh.conn)
      && s2.threads == s1.threads[t := Thread(job, if p.ok then Done else Again)]
  {
    hide Alone, Registry.Reconnect, Registry.Close, RegistryInv.Inv;
    var q := Registry.Reconnect(env, r);
    ReconnectAgrees(env, r, s1.sh);
    s2 := Reconnects(s, s1, t, job, env.ok(|r.broker.log|));
    if q.ok {
      var ok := env.ok(|q.state.broker.log|);
      s2 := Then(s, s2, t, ok, Effect(s2.sh, Thread(job, if ok then Done else Drop)));
      if !ok {
        CloseAgrees(env, q.state.(broker := Registry.SendPublish(env, q.state.broker, q.state.conn.value)), s2.sh);
        s2 := Then(s, s2, t, ok, Effect(s2.sh.(conn := false), Thread(job, Again)));
      }
    }
  }

  lemma {:induction false} AttemptsAlone(env: Registry.Env, r: Registry.State, delays: seq<nat>, i: nat,
                                         s: State, s1: State, t: Tid) returns (s2: State)
    requires Registry.Fair(env) && RegistryInv.Inv(env, Before(env, r, i)) && Agrees(s1.sh, Before(env, r, i))
    requires Alone(s, s1, t) && s1.sh.lock.None? && !s1.sh.abort && i <= |delays|
    requires t in s1.threads && s1.threads[t] == Thread(Publishing(|delays|, i + 1), Fast)
    ensures var q := Retry.RetryFrom(delays, Outcomes(env, r), Retry.Never(), i);
      && Alone(s, s2, t) && Agrees(s2.sh, Before(env, r, q.attempts)) && s2.sh == s1.sh.(conn := s2.sh.conn)
      && s2.threads == s1.threads[t := Thread(Publishing(|delays|, q.attempts), Done)]
    decreases |delays| - i
  {
    hide Alone, Registry.PublishOnce, Registry.Reconnect, RegistryInv.Inv, DoStep;
    var n, b := |delays|, Before(env, r, i);
    var p := Registry.PublishOnce(env, b);
    assert p.state == Before(env, r, i + 1) && p.ok == Outcomes(env, r)(i);
    s2 := AttemptAlone(env, b, s, s1, t, Publishing(n, i + 1));
    if !p.ok {
      RegistryInv.PublishKeeps(env, b);
      s2 := Waits(s, s2, t, n, i + 1);
      if i < n { s2 := AttemptsAlone(env, r, delays, i + 1, s, s2, t); }
    }
  }

  /** Between two attempts. */
  lemma Waits(s: State, s1: State, t: Tid, n: nat, begun: nat) returns (s2: State)
    requires Alone(s, s1, t) && !s1.sh.abort && t in s1.threads && s1.threads[t] == Thread(Publishing(n, begun), Again)
    ensures Alone(s, s2, t) && s2.sh == s1.sh
    ensures s2.threads == s1.threads[t :=
      if begun > n then Thread(Publishing(n, begun), Done) else Thread(Publishing(n, begun + 1), Fast)]
  {
    hide Alone;
    s2 := Then(s, s1, t, true, Effect(s1.sh, Thread(Publishing(n, begun), if begun > n then Done else Waiting)));
    if begun <= n { s2 := Then(s, s2, t, true, Effect(s1.sh, Thread(Publishing(n, begun + 1), Fast))); }
  }

  /** A Publish alone begins as many attempts as the retry loop makes when each has the outcome of one
      internalPublish after the other. */
  lemma PublishAlone(env: Registry.Env, r: Registry.State, delays: seq<nat>, s: State, t: Tid) returns (s': State)
    requires Registry.Fair(env) && RegistryInv.Inv(env, r) && Agrees(s.sh, r) && s.sh.lock.None? && !s.sh.abort
    requires t in s.threads && s.threads[t] == Begin(CallPublish(|delays|))
    ensures var q := Retry.Retry(delays, Outcomes(env, r), Retry.Never());
      && Alone(s, s', t) && Agrees(s'.sh, Before(env, r, q.attempts)) && s'.sh == s.sh.(conn := s'.sh.conn)
      && s'.threads == s.threads[t := Thread(Publishing(|delays|, q.attempts), Done)]
  {
    AloneSame(s, t);
    s' := AttemptsAlone(env, r, delays, 0, s, s, t);
  }

  // ---------------------------------------------------------------- the other calls

  lemma RegistersAlone(env: Registry.Env, r: Registry.State, req: Registry.SubReq, s: State, t: Tid, k: Registry.Token)
    returns (s': State)
    requires Registry.Fair(env) && RegistryInv.Inv(env, r) && Agrees(s.sh, r)
    requires s.sh.lock.None? && !s.sh.abort && t in s.threads && s.threads[t] == Begin(CallSubscribe)
    ensures var r2 := RegistryInv.Register(env, Registry.Reconnect(env, r).state, k, req);
      && Alone(s, s', t) && Agrees(s'.sh, r2) && s'.sh == s.sh.(conn := s'.sh.conn, registry := true)
      && s'.threads == s.threads[t :=
           if r2.subs[k].handle.None? then Thread(Subscribing(true), Drop) else Thread(Subscribing(false), Done)]
  {
    AloneSame(s, t);
    hide Alone, Registry.Reconnect, RegistryInv.Inv;
    var q := Registry.Reconnect(env, r);
    ReconnectAgrees(env, r, s.sh);
    s' := Reconnects(s, s, t, Subscribing(false), env.ok(|r.broker.log|));
    var ok := q.ok && env.ok(|q.state.broker.log|);
    if q.ok { s' := Then(s, s', t, ok, Effect(s'.sh, Thread(Subscribing(!ok), Keep))); }
    s' := Then(s, s', t, ok, Effect(s'.sh.(registry := true), Thread(Subscribing(!ok), if ok then Done else Drop)));
    assert k in RegistryInv.Register(env, q.state, k, req).subs;
  }

  lemma SubscribeAlone(env: Registry.Env, r: Registry.State, req: Registry.SubReq, s: State, t: Tid) returns (s': State)
    requires Registry.Fair(env) && RegistryInv.Inv(env, r) && Agrees(s.sh, r)
    requires s.sh.lock.None? && !s.sh.abort && t in s.threads && s.threads[t] == Begin(CallSubscribe)
    ensures Alone(s, s', t) && Agrees(s'.sh, Registry.QueueSubscribe(env, r, req))
    ensures s'.sh == s.sh.(conn := s'.sh.conn, registry := true)
    ensures t in s'.threads && s'.threads == s.threads[t := s'.threads[t]] && s'.threads[t].pc == Done
  {
    hide Alone, Registry.Reconnect, Registry.Close, Registry.QueueSubscribe, RegistryInv.Inv, RegistryInv.Unused,
      RegistryInv.Register;
    var k := r.nextToken;
    var r1 := r.(nextToken := k + 1);
    RegistryInv.BumpKeeps(env, r);
    RegistryInv.SubscribeUnfolds(env, r, req);
    var q := Registry.Reconnect(env, r1).state;
    RegistryInv.ReconnectUnused(env, r1, k);
    RegistryInv.ReconnectKeeps(env, r1);
    RegistryInv.RegisterKeeps(env, q, k, req);
    s' := RegistersAlone(env, r1, req, s, t, k);
    var r2 := RegistryInv.Register(env, q, k, req);
    if r2.subs[k].handle.None? {
      var r3 := Registry.Close(env, r2);
      CloseAgrees(env, r2, s'.sh);
      RegistryInv.CloseKeeps(env, r2);
      s' := Then(s, s', t, true, Effect(s'.sh.(conn := false), Thread(Subscribing(true), Fast)));
      ReconnectAgrees(env, r3, s'.sh);
      s' := Reconnects(s, s', t, Subscribing(true), env.ok(|r3.broker.log|));
    }
  }

  /** A turn of the reconnect loop, from the end of its wait to the next one. */
  lemma TurnAlone(env: Registry.Env, r: Registry.State, s: State) returns (s': State)
    requires Registry.Fair(env) && RegistryInv.Inv(env, r) && Agrees(s.sh, r)
    requires s.sh.lock.None? && !s.sh.abort && 0 in s.threads && s.threads[0] == Thread(Looping, Sleeping)
    ensures Alone(s, s', 0) && Agrees(s'.sh, Registry.Tick(env, r)) && s'.sh == s.sh.(conn := s'.sh.conn)
    ensures s'.threads == s.threads[0 := Thread(Looping, Idle)]
  {
    AloneSame(s, 0);
    hide Alone, Registry.Reconnect, Registry.PingOnce, RegistryInv.Inv;
    s' := Then(s, s, 0, true, Effect(s.sh, Thread(Looping, Check)));
    if !s.sh.registry {
      s' := Then(s, s', 0, true, Effect(s.sh, Thread(Looping, Idle)));
    } else {
      s' := PingAlone(env, r, s, s');
      var r1 := Registry.PingOnce(env, r);
      RegistryInv.PingKeeps(env, r);
      ReconnectAgrees(env, r1, s'.sh);
      s' := Reconnects(s, s', 0, Looping, env.ok(|r1.broker.log|));
    }
  }

  lemma PingAlone(env: Registry.Env, r: Registry.State, s: State, s1: State) returns (s2: State)
    requires Registry.Fair(env) && Agrees(s1.sh, r) && s1.sh.registry
    requires Alone(s, s1, 0) && s1.sh.lock.None? && 0 in s1.threads && s1.threads[0] == Thread(Looping, Check)
    ensures Alone(s, s2, 0) && Agrees(s2.sh, Registry.PingOnce(env, r)) && s2.sh == s1.sh.(conn := s2.sh.conn)
    ensures s2.threads == s1.threads[0 := Thread(Looping, Fast)]
  {
    hide Alone, Registry.Close;
    var ok := env.ok(|r.broker.log|);
    var sh := s1.sh;
    s2 := Then(s, s1, 0, ok, Effect(sh, Thread(Looping, Ping)));
    s2 := Then(s, s2, 0, ok, Effect(sh, Thread(Looping, if sh.conn && !ok then Drop else Fast)));
    if sh.conn && !ok {
      CloseAgrees(env, r.(broker := Registry.SendPing(env, r.broker, r.conn.value)), sh);
      s2 := Then(s, s2, 0, ok, Effect(sh.(conn := false), Thread(Looping, Fast)));
    }
  }

  /** Close by t has released the waiting publishers and ended the loop. */
  function Ended(threads: map<Tid, Thread>, t: Tid, pc: Pc): map<Tid, Thread> {
    Released(threads)[0 := Thread(Looping, Done)][t := Thread(Closing, pc)]
  }

  /** Close, when the loop sleeps: it ends the loop, releases whoever waits, and closes. */
  lemma CloseAlone(env: Registry.Env, r: Registry.State, s: State, t: Tid) returns (s': State)
    requires Registry.Fair(env) && Agrees(s.sh, r) && s.sh.lock.None? && t != 0 && t in s.threads
    requires 0 in s.threads && s.threads[0] == Thread(Looping, Sleeping) && s.threads[t] == Begin(CallClose)
    ensures Alone(s, s', t) && Agrees(s'.sh, Registry.Close(env, r))
    ensures s'.sh == s.sh.(conn := false, abort := true, ended := true, returned := true)
    ensures s'.threads == Ended(s.threads, t, Done)
  {
    s' := SignalsAlone(s, t);
    hide Alone, Registry.Close, Released;
    s' := Then(s, s', t, true, Effect(s'.sh, Thread(Closing, Drop)));
    CloseAgrees(env, r, s'.sh);
    s' := Then(s, s', t, true, Effect(s'.sh.(conn := false, returned := true), Thread(Closing, Done)));
  }

  lemma SignalsAlone(s: State, t: Tid) returns (s': State)
    requires t != 0 && t in s.threads && 0 in s.threads && s.threads[0] == Thread(Looping, Sleeping)
    requires s.threads[t] == Begin(CallClose)
    ensures Alone(s, s', t) && s'.sh == s.sh.(abort := true, ended := true)
    ensures s'.threads == Ended(s.threads, t, Join)
  {
    AloneSame(s, t);
    hide Alone, StepThread;
    s' := AloneStep(s, s, t, true);
    assert s' == State(s.sh.(abort := true), Released(s.threads)[t := Thread(Closing, StopLoop)]);
    s' := AloneStep(s, s', t, true);
  }

  // ---------------------------------------------------------------- Close returns

  /** Close has signalled the loop. */
  predicate HasStopped(th: Thread) {
    th.job.Closing? && th.pc != SetAbort && th.pc != StopLoop
  }

  /** Once Close has signalled it, the loop ends at the latest when it would wait again. */
  predicate Heard(s: State) {
    forall k :: k in s.threads && HasStopped(s.threads[k]) ==>
      0 in s.threads && s.threads[0].pc != Sleeping && (s.sh.stop || s.sh.ended)
  }

  lemma HeardStep(s: State, a: Action)
    requires Inv(s) && Heard(s)
    ensures Heard(Next(s, a))
  {
    if a.Do? && a.tid in s.threads {
      var t := a.tid;
      assert Local(s.sh, t, s.threads[t]);
      assert s.threads[0].pc == Done <==> s.sh.ended by { assert Local(s.sh, 0, s.threads[0]); }
      hide Inv, Local;
      if s.threads[t].pc != SetAbort && s.threads[t].pc != StopLoop && StepThread(s.sh, t, s.threads[t], a.ok).Some? {
        HeardThread(s.sh, t, s.threads[t], a.ok);
      }
      hide StepThread;
    }
  }

  /** What a step does to the loop, to a Close and to the stop event. */
  lemma HeardThread(sh: Shared, t: Tid, th: Thread, ok: bool)
    requires Local(sh, t, th) && StepThread(sh, t, th, ok).Some?
    ensures var Effect(sh', th') := StepThread(sh, t, th, ok).value;
      && th'.job.Closing? == th.job.Closing? && th'.pc != SetAbort && th'.pc != StopLoop
      && ((sh.stop || sh.ended) ==> (sh'.stop || sh'.ended))
      && (t == 0 && th'.pc == Sleeping ==> !sh.stop && !sh.ended)
  {
  }

  lemma {:induction false} HeardRun(s: State, acts: seq<Action>)
    requires Inv(s) && Heard(s)
    ensures Heard(Run(s, acts))
    decreases |acts|
  {
    hide Inv, Heard, Next;
    if acts != [] {
      HeardStep(s, acts[0]);
      StepKeeps(s, acts[0]);
      HeardRun(Next(s, acts[0]), acts[1..]);
    }
  }

  lemma LoopHearsStop(s: State)
    requires Reachable(s)
    ensures Heard(s)
  {
    hide Inv, Heard, Init;
    var conn, acts :| s == Run(Init(conn), acts);
    InitInv(conn);
    assert Heard(Init(conn)) by { NobodyCloses(conn); }
    HeardRun(Init(conn), acts);
  }

  lemma NobodyCloses(conn: bool)
    ensures Heard(Init(conn))
  {
  }

  function LoopRank(pc: Pc): nat {
    match pc
    case Check => 7
    case Ping => 6
    case Drop => 5
    case Fast => 4
    case Enter => 3
    case Dial => 2
    case Idle => 1
    case _ => 0
  }

  /** A loop that has heard the stop event can come to its end. */
  lemma {:induction false} LoopEnds(s: State, k: Tid) returns (s': State)
    requires Inv(s) && Heard(s) && k in s.threads && s.threads[k] == Thread(Closing, Join)
    ensures Inv(s') && Leads(s, s') && s'.sh.ended && k in s'.threads && s'.threads[k] == s.threads[k]
    decreases LoopRank(s.threads[0].pc)
  {
    if s.sh.ended {
      Same(s);
      return s;
    }
    assert s.threads[0].job == Looping && Placed(s.threads[0]) && s.threads[0].pc != Done by {
      assert Local(s.sh, 0, s.threads[0]);
    }
    hide Inv, StepThread, LoopRank, Leads, Placed;
    var s0 := s;
    if s.threads[0].pc != Dial { s0 := UnlockFor(s, k); } else { Same(s); }
    LoopNearer(s0.sh, s0.threads[0]);
    var s1 := Act(s0, 0);
    Trans(s, s0, s1);
    HeardOn(s, s1);
    s' := LoopEnds(s1, k);
    Trans(s, s1, s');
  }

  lemma LoopNearer(sh: Shared, th: Thread)
    requires th.job == Looping && Placed(th) && th.pc != Sleeping && th.pc != Done && sh.stop
    requires sh.lock.None? || th.pc == Dial
    ensures th.pc != SetAbort && th.pc != StopLoop && StepThread(sh, 0, th, false).Some?
    ensures LoopRank(StepThread(sh, 0, th, false).value.th.pc) < LoopRank(th.pc)
  {
  }

  /** Whoever dials can leave the lock; the loop and the Close stay where they are. */
  lemma UnlockFor(s: State, k: Tid) returns (s': State)
    requires Inv(s) && k in s.threads && s.threads[k].pc != Dial && s.threads[0].pc != Dial
    ensures Inv(s') && Leads(s, s') && s'.sh.lock.None? && s'.sh.stop == s.sh.stop && s'.sh.ended == s.sh.ended
    ensures k in s'.threads && s'.threads[k] == s.threads[k] && s'.threads[0] == s.threads[0]
  {
    if s.sh.lock.None? {
      Same(s);
      return s;
    }
    var u := s.sh.lock.value;
    assert Local(s.sh, u, s.threads[u]);
    hide Inv;
    s' := Act(s, u);
  }

  lemma HeardOn(s: State, s': State)
    requires Inv(s) && Heard(s) && Leads(s, s')
    ensures Heard(s')
  {
    hide Inv, Heard, Run;
    var acts :| Quiet(acts) && Run(s, acts) == s';
    HeardRun(s, acts);
  }

  ghost predicate CanReturn(s: State, k: Tid) {
    exists s' :: Leads(s, s') && k in s'.threads && s'.threads[k] == Thread(Closing, Done)
  }

  lemma Onward(s: State, s': State, k: Tid)
    requires Leads(s, s') && CanReturn(s', k)
    ensures CanReturn(s, k)
  {
    hide Leads;
    var s2 :| Leads(s', s2) && k in s2.threads && s2.threads[k] == Thread(Closing, Done);
    Trans(s, s', s2);
  }

  lemma FromDrop(s: State, k: Tid)
    requires Inv(s) && k in s.threads && s.threads[k] == Thread(Closing, Drop)
    ensures CanReturn(s, k)
  {
    hide Inv, Leads;
    var s1 := Unlock(s, k);
    var s2 := Act(s1, k);
    Trans(s, s1, s2);
  }

  lemma FromJoin(s: State, k: Tid)
    requires Inv(s) && Heard(s) && k in s.threads && s.threads[k] == Thread(Closing, Join)
    ensures CanReturn(s, k)
  {
    hide Inv, Leads, CanReturn;
    var s1 := LoopEnds(s, k);
    var s2 := Act(s1, k);
    Trans(s, s1, s2);
    FromDrop(s2, k);
    Onward(s, s2, k);
  }

  lemma Signals(s: State, k: Tid) returns (s': State)
    requires Inv(s) && Heard(s) && k in s.threads && (s.threads[k].pc == SetAbort || s.threads[k].pc == StopLoop)
    ensures Inv(s') && Heard(s') && Leads(s, s') && k in s'.threads && s'.threads[k].job == s.threads[k].job
    ensures s'.threads[k].pc == if s.threads[k].pc == SetAbort then StopLoop else Join
  {
    assert s.threads[k].job.Closing? && k != 0 by { assert Local(s.sh, k, s.threads[k]); }
    StepKeeps(s, Do(k, true));
    HeardStep(s, Do(k, true));
    hide Inv, Heard, StepThread;
    s' := Next(s, Do(k, true));
    assert Run(s, [Do(k, true)]) == Run(s', [Do(k, true)][1..]) == s' && Quiet([Do(k, true)]);
  }

  /** Close never hangs: from every reachable state some continuation without new calls lets it return. */
  lemma CloseReturns(s: State, k: Tid)
    requires Reachable(s) && k in s.threads && s.threads[k].job.Closing?
    ensures CanReturn(s, k)
  {
    ReachableInv(s);
    LoopHearsStop(s);
    assert Placed(s.threads[k]) by { assert Local(s.sh, k, s.threads[k]); }
    hide Inv, Heard, Leads, CanReturn;
    match s.threads[k].pc {
      case SetAbort =>
        var s1 := Signals(s, k);
        var s2 := Signals(s1, k);
        Trans(s, s1, s2);
        FromJoin(s2, k);
        Onward(s, s2, k);
      case StopLoop =>
        var s1 := Signals(s, k);
        FromJoin(s1, k);
        Onward(s, s1, k);
      case Join => FromJoin(s, k);
      case Drop => FromDrop(s, k);
      case Done =>
        Same(s);
        Arrived(s, k);
      case _ =>
    }
  }

  lemma Arrived(s: State, k: Tid)
    requires Leads(s, s) && k in s.threads && s.threads[k] == Thread(Closing, Done)
    ensures CanReturn(s, k)
  {
  }
}
