/** A call of the interleaved Go client that nobody interferes with does what the same call does in the
    machine that executes one call at a time, for every behaviour of the broker. */
module GoSequential {
  import opened Base
  import opened GoThreads
  import opened GoThreadsInv
  import opened GoThreadsRuns
  import opened GoTheorems
  import opened GoSchedules
  import opened GoCloseExactly
  import opened RegistryExact
  import Registry
  import RegistryInv
  import Retry

  // ---------------------------------------------------------------- one thread alone

  /** Every action is a step of t. */
  predicate OnlyBy(acts: seq<Action>, t: Tid) {
    forall i :: 0 <= i < |acts| ==> !acts[i].Start? && acts[i].tid == t
  }

  /** t can go from s to s' while nobody else does anything. */
  ghost predicate Alone(s: State, s': State, t: Tid) {
    exists acts :: OnlyBy(acts, t) && Run(s, acts) == s'
  }

  lemma AloneSame(s: State, t: Tid)
    ensures Alone(s, s, t)
  {
    assert Run(s, []) == s && OnlyBy([], t);
  }

  lemma AloneTrans(s: State, s1: State, s2: State, t: Tid)
    requires Alone(s, s1, t) && Alone(s1, s2, t)
    ensures Alone(s, s2, t)
  {
    var acts :| OnlyBy(acts, t) && Run(s, acts) == s1;
    var more :| OnlyBy(more, t) && Run(s1, more) == s2;
    RunAppend(s, acts, more);
    assert OnlyBy(acts + more, t);
  }

  /** s1 after one more step of t, with the effect e. */
  lemma Then(s: State, s1: State, t: Tid, ch: Choice, e: Effect) returns (s2: State)
    requires Alone(s, s1, t) && t in s1.threads && !s1.sh.panicked
    requires StepThread(s1.sh, t, s1.threads[t], ch) == Some(e)
    ensures s2 == Apply(s1, t, e) && Alone(s, s2, t)
  {
    hide StepThread;
    s2 := Apply(s1, t, e);
    var a := Do(t, ch);
    assert Next(s1, a) == s2;
    assert Run(s1, [a]) == Run(s2, [a][1..]) == s2 && OnlyBy([a], t);
    AloneTrans(s, s1, s2, t);
  }

  // ---------------------------------------------------------------- reconnect and internalClose

  /** A pass over the whole registry has been recorded. */
  function Passed(sh: Shared): Shared
    requires sh.net.conn.Some?
  {
    sh.(replays := sh.replays + [Replay(sh.net.conn.value, sh.subs, sh.subs, sh.subs, Tokens(sh.removed))])
  }

  /** A resubscription pass sends every token and ends. */
  lemma {:induction false} Pass(s: State, s1: State, t: Tid, job: Job, seen: set<Token>) returns (s2: State)
    requires Alone(s, s1, t) && !s1.sh.panicked && s1.sh.net.conn.Some? && seen <= s1.sh.subs
    requires t in s1.threads && s1.threads[t] == Thread(job, R(RReplay(s1.sh.subs, seen)))
    ensures Alone(s, s2, t)
    ensures var sh := s1.sh;
      && s2.sh == Passed(sh)
      && s2.threads == s1.threads[t := Thread(job, R(RUnlock(false)))]
    decreases s1.sh.subs - seen
  {
    hide Alone, Tokens;
    var sh := s1.sh;
    if sh.subs <= seen {
      assert seen == sh.subs;
      s2 := Then(s, s1, t, Choice(false, 0), Effect(Passed(sh), Thread(job, R(RUnlock(false)))));
    } else {
      var k :| k in sh.subs && k !in seen;
      var any := Choice(true, k);
      var s3 := Then(s, s1, t, any, Effect(sh, Thread(job, R(RNested(k, sh.subs, seen)))));
      s3 := Then(s, s3, t, any, Effect(sh, Thread(job, R(RNestedSend(k, sh.subs, seen)))));
      s3 := Then(s, s3, t, any, Effect(sh, Thread(job, R(RReplay(sh.subs, seen + {k})))));
      s2 := Pass(s, s3, t, job, seen + {k});
      assert s2.threads == s1.threads[t := Thread(job, R(RUnlock(false)))];
    }
  }

  /** What reconnect makes of the shared state when nobody interferes; dial is the broker's answer. */
  function Reconnected(sh: Shared, dial: bool): Shared {
    if sh.net.conn.Some? || !dial then sh
    else
      var c := sh.net.dialed;
      Passed(sh.(net := Net(Some(c), c + 1, c + 1, sh.net.closed)))
  }

  lemma Redial(s: State, s1: State, t: Tid, job: Job, dial: bool) returns (s2: State)
    requires Alone(s, s1, t) && !s1.sh.panicked && s1.sh.lock.None? && s1.sh.net.conn.None?
    requires t in s1.threads && s1.threads[t] == Thread(job, R(RFast))
    ensures Alone(s, s2, t) && s2.sh == Reconnected(s1.sh, dial)
    ensures s2.threads == s1.threads[t := AfterReconnect(job, !dial)]
  {
    hide Alone, Tokens, AfterReconnect;
    var ch := Choice(dial, 0);
    var sh := s1.sh.(lock := Some(t));
    var s3 := Then(s, s1, t, ch, Effect(s1.sh, Thread(job, R(RLock))));
    s3 := Then(s, s3, t, ch, Effect(sh, Thread(job, R(RSlow))));
    s3 := Then(s, s3, t, ch, Effect(sh, Thread(job, R(RDial))));
    s2 := Dialed(s, s3, t, job, dial);
    assert s2.threads == s1.threads[t := AfterReconnect(job, !dial)];
  }

  lemma Dialed(s: State, s1: State, t: Tid, job: Job, dial: bool) returns (s2: State)
    requires Alone(s, s1, t) && !s1.sh.panicked && s1.sh.lock == Some(t) && s1.sh.net.conn.None?
    requires t in s1.threads && s1.threads[t] == Thread(job, R(RDial))
    ensures Alone(s, s2, t) && s2.sh == Reconnected(s1.sh.(lock := None), dial)
    ensures s2.threads == s1.threads[t := AfterReconnect(job, !dial)]
  {
    hide Alone, Tokens, AfterReconnect;
    var ch := Choice(dial, 0);
    var sh, c, s3 := s1.sh, s1.sh.net.dialed, s1;
    if dial {
      sh := sh.(net := sh.net.(dialed := c + 1));
      s3 := Then(s, s3, t, ch, Effect(sh, Thread(job, R(RSet(c)))));
      sh := sh.(net := sh.net.(conn := Some(c), installed := c + 1));
      s3 := Then(s, s3, t, ch, Effect(sh, Thread(job, R(RReplay(sh.subs, {})))));
      s3 := Pass(s, s3, t, job, {});
    } else {
      s3 := Then(s, s3, t, ch, Effect(sh, Thread(job, R(RUnlock(true)))));
    }
    s2 := Then(s, s3, t, ch, Effect(s3.sh.(lock := None), AfterReconnect(job, !dial)));
    assert s2.threads == s1.threads[t := AfterReconnect(job, !dial)];
  }

  lemma Reconnects(s: State, s1: State, t: Tid, job: Job, dial: bool) returns (s2: State)
    requires Alone(s, s1, t) && !s1.sh.panicked && s1.sh.lock.None?
    requires t in s1.threads && s1.threads[t] == Thread(job, R(RFast))
    ensures Alone(s, s2, t) && s2.sh == Reconnected(s1.sh, dial)
    ensures s2.threads == s1.threads[t := AfterReconnect(job, s1.sh.net.conn.None? && !dial)]
  {
    hide Alone, Tokens, AfterReconnect;
    if s1.sh.net.conn.Some? {
      s2 := Then(s, s1, t, Choice(dial, 0), Effect(s1.sh, AfterReconnect(job, false)));
    } else {
      s2 := Redial(s, s1, t, job, dial);
    }
  }

  function Dropped(sh: Shared): Shared {
    if sh.net.conn.None? then sh else sh.(net := sh.net.(conn := None, closed := sh.net.closed + {sh.net.conn.value}))
  }

  lemma Drops(s: State, s1: State, t: Tid, job: Job) returns (s2: State)
    requires Alone(s, s1, t) && !s1.sh.panicked && s1.sh.lock.None?
    requires t in s1.threads && s1.threads[t] == Thread(job, C(CLock))
    ensures Alone(s, s2, t) && s2.sh == Dropped(s1.sh) && s2.threads == s1.threads[t := AfterClose(job)]
  {
    hide Alone, AfterClose;
    var any, sh := Choice(true, 0), s1.sh.(lock := Some(t));
    var s3 := Then(s, s1, t, any, Effect(sh, Thread(job, C(CConn))));
    if sh.net.conn.Some? {
      sh := sh.(net := sh.net.(closed := sh.net.closed + {sh.net.conn.value}));
      s3 := Then(s, s3, t, any, Effect(sh, Thread(job, C(CClear))));
      sh := sh.(net := sh.net.(conn := None));
    }
    s3 := Then(s, s3, t, any, Effect(sh, Thread(job, C(CUnlock))));
    s2 := Then(s, s3, t, any, Effect(sh.(lock := None), AfterClose(job)));
    assert s2.threads == s1.threads[t := AfterClose(job)];
  }

  // ---------------------------------------------------------------- the sequential machine

  /** The same connections and the same tokens. */
  predicate Agrees(sh: Shared, r: Registry.State) {
    && sh.net.conn == r.conn && sh.net.dialed == r.broker.conns && sh.net.closed == r.broker.closed
    && sh.subs == r.subs.Keys
  }

  lemma ReconnectAgrees(env: Registry.Env, r: Registry.State, sh: Shared)
    requires Registry.Fair(env) && RegistryInv.Inv(env, r) && Agrees(sh, r)
    ensures var q := Registry.Reconnect(env, r);
      && Agrees(Reconnected(sh, env.ok(|r.broker.log|)), q.state)
      && (q.ok <==> r.conn.Some? || env.ok(|r.broker.log|))
      && RegistryInv.Inv(env, q.state)
  {
    ReconnectExactly(env, r);
    RegistryInv.ReconnectKeeps(env, r);
    hide Registry.Reconnect, RegistryInv.Inv;
  }

  lemma CloseAgrees(env: Registry.Env, r: Registry.State, sh: Shared)
    requires Registry.Fair(env) && Agrees(sh, r)
    ensures Agrees(Dropped(sh), Registry.Close(env, r))
  {
    RegistryInv.CloseShape(env, r);
    hide Registry.Close;
  }

  // ---------------------------------------------------------------- publishing

  /** One attempt alone is one internalPublish. */
  lemma AttemptAlone(env: Registry.Env, r: Registry.State, s: State, s1: State, t: Tid, n: nat, tries: seq<Attempt>)
    returns (s2: State)
    requires Registry.Fair(env) && RegistryInv.Inv(env, r) && Agrees(s1.sh, r)
    requires Alone(s, s1, t) && !s1.sh.panicked && s1.sh.lock.None?
    requires t in s1.threads && s1.threads[t] == Thread(Publishing(n, tries, false), R(RFast))
    ensures var p := Registry.PublishOnce(env, r);
      && Alone(s, s2, t) && Agrees(s2.sh, p.state)
      && s2.sh == s1.sh.(net := s2.sh.net, replays := s2.sh.replays)
      && var tries' := tries + [Attempt(Registry.Reconnect(env, r).state.conn, p.ok)];
         s2.threads == s1.threads[t := Thread(Publishing(n, tries', false), P(if p.ok then PEnd else PNext))]
  {
    hide Alone, Registry.Reconnect, Registry.Close, RegistryInv.Inv;
    var job := Publishing(n, tries, false);
    var q := Registry.Reconnect(env, r);
    ReconnectAgrees(env, r, s1.sh);
    s2 := Reconnects(s, s1, t, job, env.ok(|r.broker.log|));
    if q.ok {
      var b := q.state.broker;
      var c := q.state.conn.value;
      var ok := env.ok(|b.log|);
      var job' := job.(tries := tries + [Attempt(Some(c), ok)]);
      s2 := Then(s, s2, t, Choice(ok, 0), Effect(s2.sh, Thread(job, P(PCall(c)))));
      s2 := Then(s, s2, t, Choice(ok, 0), Effect(s2.sh, Thread(job', if ok then P(PEnd) else C(CLock))));
      if !ok {
        CloseAgrees(env, q.state.(broker := Registry.SendPublish(env, b, c)), s2.sh);
        s2 := Drops(s, s2, t, job');
      }
      assert s2.threads == s1.threads[t := Thread(job', P(if ok then PEnd else PNext))];
    }
  }

  /** The attempts from number i on. */
  lemma {:induction false} AttemptsAlone(env: Registry.Env, r: Registry.State, delays: seq<nat>, i: nat,
                                         s: State, s1: State, t: Tid, tries: seq<Attempt>)
    returns (s2: State, tries': seq<Attempt>)
    requires Registry.Fair(env) && RegistryInv.Inv(env, Before(env, r, i)) && Agrees(s1.sh, Before(env, r, i))
    requires Alone(s, s1, t) && !s1.sh.panicked && s1.sh.lock.None? && i == |tries| <= |delays|
    requires t in s1.threads && s1.threads[t] == Thread(Publishing(|delays|, tries, false), R(RFast))
    requires forall j: nat :: j < i ==> tries[j].acked == Outcomes(env, r)(j)
    ensures var q := Retry.RetryFrom(delays, Outcomes(env, r), Retry.Never(), i);
      && Alone(s, s2, t) && Agrees(s2.sh, Before(env, r, q.attempts))
      && s2.sh == s1.sh.(net := s2.sh.net, replays := s2.sh.replays)
      && s2.threads == s1.threads[t := Thread(Publishing(|delays|, tries', false), P(PEnd))]
      && |tries'| == q.attempts && (forall j: nat :: j < |tries'| ==> tries'[j].acked == Outcomes(env, r)(j))
    decreases |delays| - i
  {
    hide Alone, Registry.PublishOnce, Registry.Reconnect, RegistryInv.Inv;
    var n, b := |delays|, Before(env, r, i);
    var p := Registry.PublishOnce(env, b);
    assert p.state == Before(env, r, i + 1) && p.ok == Outcomes(env, r)(i);
    s2 := AttemptAlone(env, b, s, s1, t, n, tries);
    tries' := tries + [Attempt(Registry.Reconnect(env, b).state.conn, p.ok)];
    var job := Publishing(n, tries', false);
    if !p.ok {
      RegistryInv.PublishKeeps(env, b);
      var any := Choice(true, 0);
      s2 := Then(s, s2, t, any, Effect(s2.sh, Thread(job, P(if i + 1 > n then PEnd else PWait))));
      if i < n {
        s2 := Then(s, s2, t, any, Effect(s2.sh, Thread(job, R(RFast))));
        s2, tries' := AttemptsAlone(env, r, delays, i + 1, s, s2, t, tries');
      }
      assert s2.threads == s1.threads[t := Thread(Publishing(n, tries', false), P(PEnd))];
    }
  }

  /** A Publish alone makes the attempts of the retry loop, each with the outcome of one internalPublish after
      the other, and leaves no trace in the abort registry. */
  lemma PublishAlone(env: Registry.Env, r: Registry.State, delays: seq<nat>, s: State, t: Tid)
    returns (s': State, tries: seq<Attempt>)
    requires Registry.Fair(env) && RegistryInv.Inv(env, r) && Agrees(s.sh, r)
    requires !s.sh.panicked && s.sh.lock.None? && s.sh.abortLock.None? && t !in s.sh.events
    requires t in s.threads && s.threads[t] == Begin(CallPublish(|delays|))
    ensures var q := Retry.Retry(delays, Outcomes(env, r), Retry.Never());
      && Alone(s, s', t) && Agrees(s'.sh, Before(env, r, q.attempts))
      && s'.sh == s.sh.(net := s'.sh.net, replays := s'.sh.replays)
      && s'.threads == s.threads[t := Thread(Publishing(|delays|, tries, false), Done)]
      && |tries| == q.attempts && (forall j: nat :: j < |tries| ==> tries[j].acked == Outcomes(env, r)(j))
  {
    AloneSame(s, t);
    hide Alone, RegistryInv.Inv, Registry.PublishOnce, Retry.RetryFrom;
    var any, job := Choice(true, 0), Publishing(|delays|, [], false);
    var sh := s.sh.(events := s.sh.events + {t});
    s' := Then(s, s, t, any, Effect(s.sh.(abortLock := Some(t)), Thread(job, P(PRegister))));
    s' := Then(s, s', t, any, Effect(sh, Thread(job, R(RFast))));
    s', tries := AttemptsAlone(env, r, delays, 0, s, s', t, []);
    job := Publishing(|delays|, tries, false);
    sh := s'.sh;
    s' := Then(s, s', t, any, Effect(sh.(abortLock := Some(t)), Thread(job, P(PDelete))));
    s' := Then(s, s', t, any, Effect(sh.(events := sh.events - {t}), Thread(job, Done)));
    assert sh.events - {t} == s.sh.events;
    assert s'.threads == s.threads[t := Thread(job, Done)];
  }

  // ---------------------------------------------------------------- the other calls

  /** QueueSubscribe up to the point where it has kept its record. */
  lemma RegistersAlone(env: Registry.Env, r: Registry.State, req: Registry.SubReq, s: State, t: Tid) returns (s': State)
    requires Registry.Fair(env) && RegistryInv.Inv(env, r) && Agrees(s.sh, r)
    requires !s.sh.panicked && s.sh.lock.None? && t in s.threads && s.threads[t] == Begin(CallSubscribe)
    ensures var r2 := RegistryInv.Register(env, Registry.Reconnect(env, r).state, t, req);
      && Alone(s, s', t) && Agrees(s'.sh, r2)
      && s'.sh == s.sh.(net := s'.sh.net, replays := s'.sh.replays, subs := s.sh.subs + {t})
      && s'.threads == s.threads[t :=
           if r2.subs[t].handle.None? then Thread(Subscribing(true), C(CLock)) else Thread(Subscribing(false), Done)]
  {
    AloneSame(s, t);
    hide Alone, Registry.Reconnect, RegistryInv.Inv;
    var q := Registry.Reconnect(env, r);
    ReconnectAgrees(env, r, s.sh);
    s' := Reconnects(s, s, t, Subscribing(false), env.ok(|r.broker.log|));
    var ok := q.ok && env.ok(|q.state.broker.log|);
    var ch := Choice(ok, 0);
    if q.ok {
      s' := Then(s, s', t, ch, Effect(s'.sh, Thread(Subscribing(false), S(SCall(q.state.conn.value)))));
      s' := Then(s, s', t, ch, Effect(s'.sh, Thread(Subscribing(false), S(SRegister(!ok)))));
    }
    var sh, th := s'.sh.(subs := s'.sh.subs + {t}), Thread(Subscribing(!ok), if ok then Done else C(CLock));
    s' := Then(s, s', t, ch, Effect(sh, th));
    assert s'.threads == s.threads[t := th];
  }

  lemma SubscribeAlone(env: Registry.Env, r: Registry.State, req: Registry.SubReq, s: State, t: Tid) returns (s': State)
    requires Registry.Fair(env) && RegistryInv.Inv(env, r) && Agrees(s.sh, r) && t == r.nextToken
    requires !s.sh.panicked && s.sh.lock.None? && t in s.threads && s.threads[t] == Begin(CallSubscribe)
    ensures Alone(s, s', t) && Agrees(s'.sh, Registry.QueueSubscribe(env, r, req))
    ensures s'.sh == s.sh.(net := s'.sh.net, replays := s'.sh.replays, subs := s.sh.subs + {t})
    ensures t in s'.threads && s'.threads == s.threads[t := s'.threads[t]] && s'.threads[t].pc == Done
  {
    hide Alone, Registry.Reconnect, Registry.Close, Registry.QueueSubscribe, RegistryInv.Inv, RegistryInv.Unused,
      RegistryInv.Register;
    var r1 := r.(nextToken := t + 1);
    RegistryInv.BumpKeeps(env, r);
    RegistryInv.SubscribeUnfolds(env, r, req);
    var q := Registry.Reconnect(env, r1).state;
    RegistryInv.ReconnectUnused(env, r1, t);
    RegistryInv.ReconnectKeeps(env, r1);
    RegistryInv.RegisterKeeps(env, q, t, req);
    s' := RegistersAlone(env, r1, req, s, t);
    var r2 := RegistryInv.Register(env, q, t, req);
    if r2.subs[t].handle.None? { s' := Recovers(env, r2, s, s', t); }
    assert s'.threads == s.threads[t := s'.threads[t]];
  }

  lemma Recovers(env: Registry.Env, r: Registry.State, s: State, s1: State, t: Tid) returns (s2: State)
    requires Registry.Fair(env) && RegistryInv.Inv(env, r) && Agrees(s1.sh, r)
    requires Alone(s, s1, t) && !s1.sh.panicked && s1.sh.lock.None?
    requires t in s1.threads && s1.threads[t] == Thread(Subscribing(true), C(CLock))
    ensures Alone(s, s2, t) && Agrees(s2.sh, Registry.Reconnect(env, Registry.Close(env, r)).state)
    ensures s2.sh == s1.sh.(net := s2.sh.net, replays := s2.sh.replays)
    ensures s2.threads == s1.threads[t := Thread(Subscribing(true), Done)]
  {
    hide Alone, Registry.Reconnect, Registry.Close, RegistryInv.Inv;
    var r1 := Registry.Close(env, r);
    CloseAgrees(env, r, s1.sh);
    RegistryInv.CloseKeeps(env, r);
    s2 := Drops(s, s1, t, Subscribing(true));
    ReconnectAgrees(env, r1, s2.sh);
    s2 := Reconnects(s, s2, t, Subscribing(true), env.ok(|r1.broker.log|));
    assert s2.threads == s1.threads[t := Thread(Subscribing(true), Done)];
  }

  /** A turn of the reconnect loop, from the end of its wait to its next wait. */
  lemma TurnAlone(env: Registry.Env, r: Registry.State, s: State) returns (s': State)
    requires Registry.Fair(env) && RegistryInv.Inv(env, r) && Agrees(s.sh, r)
    requires !s.sh.panicked && s.sh.lock.None? && 0 in s.threads && s.threads[0] == Thread(Looping, L(LWait))
    ensures Alone(s, s', 0) && Agrees(s'.sh, Registry.Tick(env, r))
    ensures s'.sh == s.sh.(net := s'.sh.net, replays := s'.sh.replays) && s'.threads == s.threads
  {
    AloneSame(s, 0);
    var ok := env.ok(|r.broker.log|);
    var ch := Choice(ok, 0);
    s' := Then(s, s, 0, ch, Effect(s.sh, Thread(Looping, L(LCheck))));
    if s.sh.subs == {} {
      assert r.subs == map[];
      s' := Then(s, s', 0, ch, Effect(s.sh, Thread(Looping, L(LWait))));
    } else {
      assert r.subs != map[];
      s' := PingAlone(env, r, s, s');
      var r1 := Registry.PingOnce(env, r);
      RegistryInv.PingKeeps(env, r);
      hide Alone, Registry.Reconnect, Registry.PingOnce, RegistryInv.Inv;
      ReconnectAgrees(env, r1, s'.sh);
      s' := Reconnects(s, s', 0, Looping, env.ok(|r1.broker.log|));
    }
    assert s'.threads == s.threads;
  }

  lemma PingAlone(env: Registry.Env, r: Registry.State, s: State, s1: State) returns (s2: State)
    requires Registry.Fair(env) && Agrees(s1.sh, r) && s1.sh.subs != {}
    requires Alone(s, s1, 0) && !s1.sh.panicked && s1.sh.lock.None?
    requires 0 in s1.threads && s1.threads[0] == Thread(Looping, L(LCheck))
    ensures Alone(s, s2, 0) && Agrees(s2.sh, Registry.PingOnce(env, r)) && s2.sh == s1.sh.(net := s2.sh.net)
    ensures s2.threads == s1.threads[0 := Thread(Looping, R(RFast))]
  {
    hide Alone, Registry.Close;
    var ch, sh := Choice(env.ok(|r.broker.log|), 0), s1.sh.(lock := Some(0));
    var err := r.conn.Some? && !ch.ok;
    s2 := Then(s, s1, 0, ch, Effect(s1.sh, Thread(Looping, L(LLock))));
    s2 := Then(s, s2, 0, ch, Effect(sh, Thread(Looping, L(LPing))));
    s2 := Then(s, s2, 0, ch, Effect(sh, Thread(Looping, L(LUnlock(err)))));
    s2 := Then(s, s2, 0, ch, Effect(s1.sh, Thread(Looping, if err then C(CLock) else R(RFast))));
    if err {
      CloseAgrees(env, r.(broker := Registry.SendPing(env, r.broker, r.conn.value)), s2.sh);
      s2 := Drops(s, s2, 0, Looping);
    }
    assert s2.threads == s1.threads[0 := Thread(Looping, R(RFast))];
  }

  lemma RemoveAlone(env: Registry.Env, r: Registry.State, k: Token, unsubscribe: bool, s: State, t: Tid)
    returns (s': State)
    requires Agrees(s.sh, r) && !s.sh.panicked && s.sh.lock.None?
    requires t in s.threads && s.threads[t] == Begin(CallRemove(k))
    ensures var q := Registry.Remove(env, r, k, unsubscribe);
      && Alone(s, s', t) && Agrees(s'.sh, q.state)
      && s'.sh == s.sh.(subs := s'.sh.subs, removed := s'.sh.removed)
      && s'.threads == s.threads[t := Thread(Removing(k, q.ok), Done)]
  {
    AloneSame(s, t);
    RemoveExactly(env, r, k, unsubscribe);
    hide Alone, Registry.Remove;
    var any, sh, job := Choice(true, 0), s.sh.(lock := Some(t)), Removing(k, k in r.subs);
    s' := Then(s, s, t, any, Effect(sh, Thread(Removing(k, false), M(MDelete))));
    if k in s.sh.subs { sh := sh.(subs := sh.subs - {k}, removed := sh.removed + [Removal(k, t)]); }
    s' := Then(s, s', t, any, Effect(sh, Thread(job, M(MUnlock))));
    s' := Then(s, s', t, any, Effect(sh.(lock := None), Thread(job, Done)));
    assert s'.threads == s.threads[t := Thread(job, Done)];
  }

  /** The lost-connection callback. */
  lemma LostAlone(env: Registry.Env, r: Registry.State, s: State, t: Tid) returns (s': State)
    requires Registry.Fair(env) && Agrees(s.sh, r) && !s.sh.panicked && s.sh.lock.None?
    requires t in s.threads && s.threads[t] == Begin(ConnectionLost)
    ensures Alone(s, s', t) && Agrees(s'.sh, Registry.Close(env, r)) && s'.sh == s.sh.(net := s'.sh.net)
    ensures s'.threads == s.threads[t := Thread(Losing, Done)]
  {
    AloneSame(s, t);
    hide Alone;
    CloseAgrees(env, r, s.sh);
    s' := Drops(s, s, t, Losing);
  }

  /** Close by t has ended the loop. */
  function Ended(threads: map<Tid, Thread>, t: Tid, pc: Pc): map<Tid, Thread> {
    threads[0 := Thread(Looping, Done)][t := Thread(Closing, pc)]
  }

  /** Close, when no publish is listed and the loop waits. */
  lemma CloseAlone(env: Registry.Env, r: Registry.State, s: State, t: Tid) returns (s': State)
    requires Registry.Fair(env) && Agrees(s.sh, r) && !s.sh.panicked && s.sh.lock.None? && s.sh.abortLock.None?
    requires s.sh.events == {} && s.sh.chan && 0 in s.threads && s.threads[0] == Thread(Looping, L(LWait))
    requires t != 0 && t in s.threads && s.threads[t] == Begin(CallClose)
    ensures Alone(s, s', t) && Agrees(s'.sh, Registry.Close(env, r))
    ensures s'.sh == s.sh.(net := s'.sh.net, stopped := true, chan := false)
    ensures s'.threads == Ended(s.threads, t, Done)
  {
    AloneSame(s, t);
    var any := Choice(true, 0);
    s' := Then(s, s, t, any, Effect(s.sh.(abortLock := Some(t)), Thread(Closing, X(XAborts))));
    s' := Then(s, s', t, any, Effect(s.sh, Thread(Closing, X(XCheck))));
    s' := Then(s, s', t, any, Effect(s.sh, Thread(Closing, X(XSend))));
    s' := Stopped(s, s', t);
    hide Alone;
    s' := Then(s, s', t, any, Effect(s'.sh.(chan := false), Thread(Closing, C(CLock))));
    CloseAgrees(env, r, s'.sh);
    s' := Drops(s, s', t, Closing);
    assert s'.threads == Ended(s.threads, t, Done);
  }

  lemma Stopped(s: State, s1: State, t: Tid) returns (s2: State)
    requires Alone(s, s1, t) && !s1.sh.panicked
    requires t != 0 && t in s1.threads && s1.threads[t] == Thread(Closing, X(XSend))
    requires 0 in s1.threads && s1.threads[0] == Thread(Looping, L(LWait))
    ensures Alone(s, s2, t)
    ensures s2 == State(s1.sh.(stopped := true), Ended(s1.threads, t, X(XNil)))
  {
    hide Alone;
    s2 := Next(s1, SendStop(t));
    assert Alone(s1, s2, t) by { StepAlone(s1, SendStop(t)); }
    AloneTrans(s, s1, s2, t);
  }

  lemma StepAlone(s: State, a: Action)
    requires !a.Start?
    ensures Alone(s, Next(s, a), a.tid)
  {
    hide Next;
    assert Run(s, [a]) == Run(Next(s, a), [a][1..]) == Next(s, a) && OnlyBy([a], a.tid);
  }
}
