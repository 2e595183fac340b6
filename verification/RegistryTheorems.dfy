/** What the registry guarantees over whole runs, for every broker behaviour and enumeration order. */
module RegistryTheorems {
  import opened Base
  import opened Registry
  import opened RegistryInv

  // ---------------------------------------------------------------- runs

  lemma InitInv(env: Env)
    requires Fair(env)
    ensures Inv(env, Init(env))
  {
    ReconnectKeeps(env, State(None, map[], 0, Broker(0, {}, map[], [])));
  }

  lemma DoKeeps(env: Env, s: State, op: Op)
    requires Fair(env) && Inv(env, s)
    ensures Inv(env, Do(env, s, op))
  {
    hide Inv, QueueSubscribe, Remove, PublishOnce, Tick, Close;
    match op
    case Subscribing(req) => SubscribeKeeps(env, s, req);
    case Removing(t, unsubscribe) => RemoveKeeps(env, s, t, unsubscribe);
    case Publishing => PublishKeeps(env, s);
    case Ticking => TickKeeps(env, s);
    case Losing => CloseKeeps(env, s);
  }

  lemma {:induction false} RunKeeps(env: Env, s: State, ops: seq<Op>)
    requires Fair(env) && Inv(env, s)
    ensures Inv(env, Run(env, s, ops))
    decreases |ops|
  {
    if ops != [] {
      DoKeeps(env, s, ops[0]);
      hide Inv, Do;
      RunKeeps(env, Do(env, s, ops[0]), ops[1..]);
    }
  }

  lemma ReachableInv(env: Env, s: State)
    requires Fair(env) && Reachable(env, s)
    ensures Inv(env, s)
  {
    hide Inv, Init, Run;
    InitInv(env);
    var ops :| s == Run(env, Init(env), ops);
    RunKeeps(env, Init(env), ops);
  }

  // ---------------------------------------------------------------- handles

  /** C#: the handle of a registered token is null or is its live subscription on the current
      connection, and the token has no other. */
  lemma HandleAgreement(env: Env, s: State, t: Token, h: Handle)
    requires Fair(env) && Reachable(env, s) && env.writesBack && t in s.subs
    ensures s.subs[t].handle == Some(h) <==> Live(s, t, h)
  {
    ReachableInv(env, s);
  }

  /** In both languages a registered token has at most one live subscription. */
  lemma AtMostOneLive(env: Env, s: State, t: Token, h: Handle, h': Handle)
    requires Fair(env) && Reachable(env, s) && t in s.subs && Live(s, t, h) && Live(s, t, h')
    ensures h == h' && Carries(s.broker.active[h].wire, s.subs[t].req)
  {
    ReachableInv(env, s);
  }

  /** C#: a removal the broker accepts ends the token's subscription. */
  lemma RemovalEnds(env: Env, s: State, t: Token, unsubscribe: bool, h: Handle)
    requires Fair(env) && Reachable(env, s) && env.writesBack && t in s.subs && env.ok(|s.broker.log|)
    ensures !Live(Remove(env, s, t, unsubscribe).state, t, h)
  {
    ReachableInv(env, s);
  }

  /** Go: it does so exactly when the stored handle was obtained on the current connection. */
  lemma GoRemovalEndsExactly(env: Env, s: State, t: Token, unsubscribe: bool, h: Handle)
    requires Fair(env) && Reachable(env, s) && !env.writesBack && t in s.subs && env.ok(|s.broker.log|)
    requires Live(s, t, h)
    ensures !Live(Remove(env, s, t, unsubscribe).state, t, h) <==> Current(s, t)
  {
    ReachableInv(env, s);
  }

  /** Go: after a reconnect no stored handle is from the current connection. */
  lemma GoLosesTrack(env: Env, s: State, t: Token)
    requires Fair(env) && Reachable(env, s) && !env.writesBack && s.conn.None? && t in s.subs
    ensures t in Reconnect(env, s).state.subs && !Current(Reconnect(env, s).state, t)
  {
    ReachableInv(env, s);
    if Accepted(env, s.broker) {
      DialPasses(env, s);
      var s1 := s.(conn := Some(s.broker.conns), broker := Dial(env, s.broker));
      ReplayNamed(env, s1, Reconnect(env, s).state, Order(env, |s.broker.log| + 1, s.subs.Keys), t);
    }
  }

  // ---------------------------------------------------------------- reconnecting

  /** Request number i subscribed t on connection c for what req says. */
  ghost predicate SentAt(b: Broker, i: nat, c: ConnId, t: Token, req: SubReq) {
    && i < |b.log| && b.log[i].Subscribe? && b.log[i].conn == c && b.log[i].token == t
    && Carries(b.log[i].wire, req)
  }

  /** The requests from number n on are one subscribe per record of subs, each with the record's content. */
  ghost predicate OnePerRecord(b: Broker, n: nat, c: ConnId, subs: map<Token, Rec>) {
    && |b.log| == n + |subs|
    && (forall t :: t in subs ==> exists i :: n <= i && SentAt(b, i, c, t, subs[t].req))
    && (forall i :: n <= i < |b.log| ==> b.log[i].Subscribe? && b.log[i].conn == c && b.log[i].token in subs)
    && (forall i, j :: n <= i < j < |b.log| ==> b.log[i].token != b.log[j].token)
  }

  /** A reconnect without a connection makes one connect request and, if that is accepted, exactly one
      subscribe request for every record; if not, nothing more. */
  lemma ReconnectCounts(env: Env, s: State)
    requires Fair(env) && Reachable(env, s) && s.conn.None?
    ensures var r, n, c := Reconnect(env, s), |s.broker.log|, s.broker.conns;
      && r.ok == env.ok(n)
      && n < |r.state.broker.log|
      && (forall i :: 0 <= i < n ==> r.state.broker.log[i] == s.broker.log[i])
      && r.state.broker.log[n] == Connect(if r.ok then Some(c) else None)
      && (if r.ok then OnePerRecord(r.state.broker, n + 1, c, s.subs) else |r.state.broker.log| == n + 1)
  {
    ReachableInv(env, s);
    hide Inv, Reachable;
    DialCounts(env, s);
  }

  lemma DialCounts(env: Env, s: State)
    requires Fair(env) && Inv(env, s) && s.conn.None?
    ensures var r, n, c := Reconnect(env, s), |s.broker.log|, s.broker.conns;
      && r.ok == env.ok(n)
      && n < |r.state.broker.log|
      && (forall i :: 0 <= i < n ==> r.state.broker.log[i] == s.broker.log[i])
      && r.state.broker.log[n] == Connect(if r.ok then Some(c) else None)
      && (if r.ok then OnePerRecord(r.state.broker, n + 1, c, s.subs) else |r.state.broker.log| == n + 1)
  {
    if Accepted(env, s.broker) {
      var s1 := s.(conn := Some(s.broker.conns), broker := Dial(env, s.broker));
      DialPasses(env, s);
      CountsFromPass(env, s1, Reconnect(env, s).state, Order(env, |s.broker.log| + 1, s.subs.Keys));
      assert forall i :: 0 <= i < |s.broker.log| ==> s1.broker.log[i] == s.broker.log[i];
      hide Reconnect, Passed, Inv, OnePerRecord;
    }
  }

  lemma CountsFromPass(env: Env, s: State, s': State, ord: seq<Token>)
    requires Passed(env, s, s', ord)
    ensures OnePerRecord(s'.broker, |s.broker.log|, s.conn.value, s.subs)
    ensures s'.conn == s.conn
    ensures forall i :: 0 <= i < |s.broker.log| ==> s'.broker.log[i] == s.broker.log[i]
  {
    hide ActiveReplayed, SubsReplayed, LogInv, SubsInv;
    var n := |s.broker.log|;
    DistinctSize(ord, s.subs.Keys);
    assert |s.subs.Keys| == |s.subs|;
    forall t | t in s.subs ensures exists i :: n <= i && SentAt(s'.broker, i, s.conn.value, t, s.subs[t].req) {
      var k :| 0 <= k < |ord| && ord[k] == t;
      assert s'.broker.log[n + k].token == ord[k];
      assert SentAt(s'.broker, n + k, s.conn.value, t, s.subs[t].req);
    }
  }

  lemma {:induction false} DistinctSize(q: seq<Token>, keys: set<Token>)
    requires Distinct(q) && forall t :: t in q <==> t in keys
    ensures |q| == |keys|
  {
    if q != [] {
      var rest := q[..|q| - 1];
      assert q[|q| - 1] in q;
      assert forall t :: t in rest <==> t in keys - {q[|q| - 1]};
      DistinctSize(rest, keys - {q[|q| - 1]});
    } else {
      assert forall t :: t in keys <==> t in q;
      assert keys == {};
    }
  }

  /** Every registered token has a live subscription. */
  ghost predicate Healed(s: State) {
    forall t :: t in s.subs ==> exists h: Handle :: Live(s, t, h)
  }

  /** The broker accepts requests from .. from + count. */
  ghost predicate Accepts(env: Env, from: nat, count: nat) {
    forall k: nat :: from <= k < from + count ==> env.ok(k)
  }

  /** From any reachable state with a subscription, a turn of the reconnect loop that finds no
      connection, or whose ping fails, heals exactly when the broker accepts the connect request
      and each of the subscribe requests that follow. The connection is then newer than all
      before it. In any case the registry keeps its tokens and their requests. */
  lemma SelfHealingTick(env: Env, s: State)
    requires Fair(env) && Reachable(env, s) && s.subs != map[]
    requires s.conn.None? || !env.ok(|s.broker.log|)
    ensures var s', n := Tick(env, s), |PingOnce(env, s).broker.log|;
      && SameRequests(s, s')
      && (Healed(s') <==> Accepts(env, n, 1 + |s.subs|))
      && (s'.conn == if env.ok(n) then Some(s.broker.conns) else None)
      && (forall c :: c in s.broker.closed || s.conn == Some(c) ==> c < s.broker.conns)
      && (env.writesBack && Healed(s') ==> forall t :: t in s.subs ==>
            && s'.subs[t].handle.Some? && Live(s', t, s'.subs[t].handle.value)
            && Carries(s'.broker.active[s'.subs[t].handle.value].wire, s.subs[t].req))
  {
    ReachableInv(env, s);
    TickKeeps(env, s);
    PingKeeps(env, s);
    PingDrops(env, s);
    var s0 := PingOnce(env, s);
    assert |s0.subs.Keys| == |s.subs.Keys| == |s.subs|;
    assert Tick(env, s) == Reconnect(env, s0).state;
    hide Tick, PingOnce;
    ReconnectHeals(env, s0);
    if env.writesBack && Healed(Tick(env, s)) { HealedHandles(env, s, Tick(env, s)); }
  }

  lemma HealedHandles(env: Env, s: State, s': State)
    requires Inv(env, s') && env.writesBack && Healed(s') && SameRequests(s, s')
    ensures forall t :: t in s.subs ==>
      && s'.subs[t].handle.Some? && Live(s', t, s'.subs[t].handle.value)
      && Carries(s'.broker.active[s'.subs[t].handle.value].wire, s.subs[t].req)
  {
    forall t | t in s.subs ensures s'.subs[t].handle.Some? {
      var h: Handle :| Live(s', t, h);
      assert s'.subs[t].handle == Some(h);
    }
  }

  lemma ReconnectHeals(env: Env, s: State)
    requires Fair(env) && Inv(env, s) && s.conn.None? && s.subs != map[]
    ensures var s', n := Reconnect(env, s).state, |s.broker.log|;
      && (Healed(s') <==> Accepts(env, n, 1 + |s.subs.Keys|))
      && (s'.conn == if env.ok(n) then Some(s.broker.conns) else None)
  {
    if Accepted(env, s.broker) {
      DialHeals(env, s);
    } else {
      var t :| t in s.subs;
      var s' := Reconnect(env, s).state;
      assert t in s'.subs && forall h :: !Live(s', t, h);
      assert !env.ok(|s.broker.log|);
    }
  }

  lemma DialHeals(env: Env, s: State)
    requires Fair(env) && Inv(env, s) && s.conn.None? && Accepted(env, s.broker)
    ensures var s' := Reconnect(env, s).state;
      && (Healed(s') <==> Accepts(env, |s.broker.log|, 1 + |s.subs.Keys|))
      && s'.conn == Some(s.broker.conns)
  {
    hide Reconnect, Healed, Passed, Order, Inv, ConnInv, Accepts;
    var n := |s.broker.log|;
    var ord := Order(env, n + 1, s.subs.Keys);
    DialPasses(env, s);
    OrderEnumerates(env, n + 1, s.subs.Keys);
    HealedFromPass(env, s.(conn := Some(s.broker.conns), broker := Dial(env, s.broker)), Reconnect(env, s).state, ord);
    AcceptsCons(env, n, |ord|);
  }

  lemma AcceptsCons(env: Env, n: nat, count: nat)
    ensures Accepts(env, n, 1 + count) <==> env.ok(n) && Accepts(env, n + 1, count)
  {
  }

  lemma PingDrops(env: Env, s: State)
    requires Fair(env)
    requires s.conn.None? || !env.ok(|s.broker.log|)
    ensures var s0 := PingOnce(env, s);
      s0.conn.None? && s0.broker.conns == s.broker.conns && s0.subs.Keys == s.subs.Keys
  {
    if s.conn.Some? { CloseShape(env, s.(broker := SendPing(env, s.broker, s.conn.value))); }
  }

  lemma HealedFromPass(env: Env, s: State, s': State, ord: seq<Token>)
    requires Passed(env, s, s', ord)
    ensures Healed(s') <==> Accepts(env, |s.broker.log|, |ord|)
    ensures s'.conn == s.conn
  {
    var n := |s.broker.log|;
    assert s'.subs.Keys == s.subs.Keys;
    if Healed(s') {
      forall k: nat | n <= k < n + |ord| ensures env.ok(k) {
        var t := ord[k - n];
        assert t in ord;
        var h: Handle :| Live(s', t, h);
        PassHits(env, s, s', ord, t, h, k);
      }
    }
    if Accepts(env, n, |ord|) {
      forall t | t in s'.subs ensures exists h: Handle :: Live(s', t, h) {
        var k :| 0 <= k < |ord| && ord[k] == t;
        ReplayedLive(env, s, s', ord, t, n + k);
      }
    }
    hide Live, Passed;
  }

  lemma PassHits(env: Env, s: State, s': State, ord: seq<Token>, t: Token, h: Handle, k: nat)
    requires Passed(env, s, s', ord) && Live(s', t, h)
    requires |s.broker.log| <= k < |s.broker.log| + |ord| && ord[k - |s.broker.log|] == t
    ensures env.ok(k)
  {
    ReplayedLive(env, s, s', ord, t, h);
    assert h == k;
  }

  // ---------------------------------------------------------------- the registry over runs

  /** Requests were added; the subscribe requests among them are for toks. */
  ghost predicate Sends(b: Broker, b': Broker, toks: set<Token>) {
    && |b.log| <= |b'.log|
    && (forall i :: 0 <= i < |b.log| ==> b'.log[i] == b.log[i])
    && (forall i :: |b.log| <= i < |b'.log| && b'.log[i].Subscribe? ==> b'.log[i].token in toks)
  }

  lemma ReconnectSends(env: Env, s: State)
    requires Fair(env) && Inv(env, s)
    ensures Sends(s.broker, Reconnect(env, s).state.broker, s.subs.Keys)
  {
    if s.conn.None? && Accepted(env, s.broker) {
      var s1 := s.(conn := Some(s.broker.conns), broker := Dial(env, s.broker));
      DialPasses(env, s);
      PassSends(env, s1, Reconnect(env, s).state, Order(env, |s.broker.log| + 1, s.subs.Keys));
      hide Reconnect, Passed, Inv, Order;
    }
  }

  lemma PassSends(env: Env, s: State, s': State, ord: seq<Token>)
    requires Passed(env, s, s', ord)
    ensures Sends(s.broker, s'.broker, s.subs.Keys)
  {
    CountsFromPass(env, s, s', ord);
    hide Passed;
  }

  /** Which tokens an operation may subscribe and which it leaves registered. */
  ghost predicate Moves(s: State, s': State, op: Op) {
    match op
    case Subscribing(req) =>
      && Sends(s.broker, s'.broker, s.subs.Keys + {s.nextToken})
      && s'.subs.Keys == s.subs.Keys + {s.nextToken} && s'.nextToken == s.nextToken + 1
    case Removing(t, _) =>
      Sends(s.broker, s'.broker, s.subs.Keys) && s'.subs.Keys == s.subs.Keys - {t} && s'.nextToken == s.nextToken
    case _ =>
      Sends(s.broker, s'.broker, s.subs.Keys) && s'.subs.Keys == s.subs.Keys && s'.nextToken == s.nextToken
  }

  lemma SubscribeMoves(env: Env, s: State, req: SubReq)
    requires Fair(env) && Inv(env, s)
    ensures Moves(s, QueueSubscribe(env, s, req), Subscribing(req))
  {
    hide Inv, Reconnect, Close, QueueSubscribe;
    SubscribeKeeps(env, s, req);
    SubscribeUnfolds(env, s, req);
    BumpKeeps(env, s);
    var s0 := s.(nextToken := s.nextToken + 1);
    var r := Reconnect(env, s0).state;
    ReconnectKeeps(env, s0);
    ReconnectSends(env, s0);
    ReconnectUnused(env, s0, s.nextToken);
    var s1 := Register(env, r, s.nextToken, req);
    RegisterKeeps(env, r, s.nextToken, req);
    CloseKeeps(env, s1);
    CloseShape(env, s1);
    ReconnectSends(env, Close(env, s1));
  }

  lemma PublishMoves(env: Env, s: State)
    requires Fair(env) && Inv(env, s)
    ensures Moves(s, PublishOnce(env, s).state, Publishing)
  {
    hide Reconnect, Close, Inv;
    ReconnectSends(env, s);
    ReconnectKeeps(env, s);
    var r := Reconnect(env, s);
    if r.ok { CloseShape(env, r.state.(broker := SendPublish(env, r.state.broker, r.state.conn.value))); }
  }

  lemma TickMoves(env: Env, s: State)
    requires Fair(env) && Inv(env, s)
    ensures Moves(s, Tick(env, s), Ticking)
  {
    hide Reconnect, Close, Inv;
    if s.conn.Some? { CloseShape(env, s.(broker := SendPing(env, s.broker, s.conn.value))); }
    PingKeeps(env, s);
    var s0 := PingOnce(env, s);
    assert Sends(s.broker, s0.broker, {});
    hide PingOnce;
    ReconnectKeeps(env, s0);
    ReconnectSends(env, s0);
  }

  lemma DoMoves(env: Env, s: State, op: Op)
    requires Fair(env) && Inv(env, s)
    ensures Moves(s, Do(env, s, op), op)
  {
    hide QueueSubscribe, PublishOnce, Tick, Close;
    match op
    case Subscribing(req) => SubscribeMoves(env, s, req);
    case Removing(t, unsubscribe) =>
    case Publishing => PublishMoves(env, s);
    case Ticking => TickMoves(env, s);
    case Losing => CloseShape(env, s);
  }

  /** A token is registered by its QueueSubscribe, whatever the broker answers, and stays registered
      through every run until it is removed. */
  lemma {:induction false} RegisteredUntilRemoved(env: Env, s: State, t: Token, ops: seq<Op>)
    requires Fair(env) && Inv(env, s) && t in s.subs
    ensures t in Run(env, s, ops).subs <==> forall op :: op in ops && op.Removing? ==> op.token != t
    decreases |ops|
  {
    if ops != [] {
      DoMoves(env, s, ops[0]);
      DoKeeps(env, s, ops[0]);
      var s1 := Do(env, s, ops[0]);
      hide Inv, Do;
      assert forall op :: op in ops <==> op == ops[0] || op in ops[1..];
      if t in s1.subs {
        RegisteredUntilRemoved(env, s1, t, ops[1..]);
      } else {
        StaysAway(env, s1, t, ops[1..]);
      }
    }
  }

  /** A token that was once handed out and is not registered never comes back: no run registers it and
      no run sends a request for it. */
  lemma {:induction false} StaysAway(env: Env, s: State, t: Token, ops: seq<Op>)
    requires Fair(env) && Inv(env, s) && t < s.nextToken && t !in s.subs
    ensures var s' := Run(env, s, ops);
      && t !in s'.subs
      && |s.broker.log| <= |s'.broker.log|
      && forall i :: |s.broker.log| <= i < |s'.broker.log| && s'.broker.log[i].Subscribe? ==>
           s'.broker.log[i].token != t
    decreases |ops|
  {
    if ops != [] {
      DoMoves(env, s, ops[0]);
      DoKeeps(env, s, ops[0]);
      var s1 := Do(env, s, ops[0]);
      hide Inv, Do;
      StaysAway(env, s1, t, ops[1..]);
      LogGrows(env, s1, ops[1..]);
    }
  }

  lemma {:induction false} LogGrows(env: Env, s: State, ops: seq<Op>)
    requires Fair(env) && Inv(env, s)
    ensures var s' := Run(env, s, ops);
      |s.broker.log| <= |s'.broker.log| && forall i :: 0 <= i < |s.broker.log| ==> s'.broker.log[i] == s.broker.log[i]
    decreases |ops|
  {
    if ops != [] {
      DoMoves(env, s, ops[0]);
      DoKeeps(env, s, ops[0]);
      hide Inv, Do;
      LogGrows(env, Do(env, s, ops[0]), ops[1..]);
    }
  }

  /** A token is removed successfully at most once, and is never resubscribed afterwards. */
  lemma RemovedForGood(env: Env, s: State, t: Token, unsubscribe: bool, ops: seq<Op>)
    requires Fair(env) && Reachable(env, s) && Remove(env, s, t, unsubscribe).ok
    ensures var s1 := Remove(env, s, t, unsubscribe).state;
      var s' := Run(env, s1, ops);
      && !Remove(env, s', t, true).ok && !Remove(env, s', t, false).ok
      && |s1.broker.log| <= |s'.broker.log|
      && forall i :: |s1.broker.log| <= i < |s'.broker.log| && s'.broker.log[i].Subscribe? ==>
           s'.broker.log[i].token != t
  {
    ReachableInv(env, s);
    RemoveKeeps(env, s, t, unsubscribe);
    StaysAway(env, Remove(env, s, t, unsubscribe).state, t, ops);
  }

  /** Every subscribe request ever sent for a token, on any connection, before or after its removal, is
      the one its QueueSubscribe asked for: same subject, options and callback, and queue or
      plain subscribe chosen the same way. */
  lemma ResubscribeFidelity(env: Env, s: State, req: SubReq, ops: seq<Op>)
    requires Fair(env) && Reachable(env, s)
    ensures var b := Run(env, QueueSubscribe(env, s, req), ops).broker;
      forall i :: 0 <= i < |b.log| && b.log[i].Subscribe? && b.log[i].token == s.nextToken ==>
        Carries(b.log[i].wire, req)
  {
    ReachableInv(env, s);
    SubscribeKeeps(env, s, req);
    FaithfulRun(env, QueueSubscribe(env, s, req), s.nextToken, req, ops);
  }

  /** All requests for t so far are req's, and so is the one stored for it. */
  ghost predicate Faithful(s: State, t: Token, req: SubReq) {
    && t < s.nextToken
    && (t in s.subs ==> s.subs[t].req == req)
    && (forall i :: 0 <= i < |s.broker.log| && s.broker.log[i].Subscribe? && s.broker.log[i].token == t ==>
          s.broker.log[i].wire == WireOf(req))
  }

  lemma FaithfulDo(env: Env, s: State, op: Op, t: Token, req: SubReq)
    requires Fair(env) && Inv(env, s) && Faithful(s, t, req)
    ensures Faithful(Do(env, s, op), t, req)
  {
    var s' := Do(env, s, op);
    DoMoves(env, s, op);
    DoKeeps(env, s, op);
    DoRequests(env, s, op, t);
    if t in s'.subs {
      assert SubsInv(s');
    }
    hide Do, ConnInv, LogInv, Agreement, Single, Named;
  }

  lemma DoRequests(env: Env, s: State, op: Op, t: Token)
    requires Fair(env) && Inv(env, s) && t < s.nextToken
    ensures var s' := Do(env, s, op); t in s'.subs ==> t in s.subs && s'.subs[t].req == s.subs[t].req
  {
    DoMoves(env, s, op);
    match op
    case Subscribing(r) => SubscribeKeeps(env, s, r);
    case Removing(_, _) =>
    case Publishing => PublishKeeps(env, s);
    case Ticking => TickKeeps(env, s);
    case Losing => CloseKeeps(env, s);
    hide Inv, QueueSubscribe, PublishOnce, Tick, Close, Sends;
  }

  lemma {:induction false} FaithfulRun(env: Env, s: State, t: Token, req: SubReq, ops: seq<Op>)
    requires Fair(env) && Inv(env, s) && Faithful(s, t, req)
    ensures Faithful(Run(env, s, ops), t, req)
    decreases |ops|
  {
    if ops != [] {
      hide Inv, Do, Faithful;
      FaithfulDo(env, s, ops[0], t, req);
      DoKeeps(env, s, ops[0]);
      FaithfulRun(env, Do(env, s, ops[0]), t, req, ops[1..]);
    }
  }
}
