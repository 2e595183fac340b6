/** What each call asks the broker for, request by request, and what it changes. */
module RegistryExact {
  import opened Base
  import opened Registry
  import opened RegistryInv
  import opened RegistryTheorems
  import opened Retry

  /** b' has the requests of b, and then q. */
  predicate Appends(b: Broker, b': Broker, q: seq<Event>) {
    b'.log == b.log + q
  }

  datatype Kind = ADial | ASubscribe | APublish | APing | AnUnsubscribe | AnEnd | AClose

  function KindOf(e: Event): Kind {
    match e
    case Connect(_) => ADial
    case Subscribe(_, _, _, _) => ASubscribe
    case Publish(_, _) => APublish
    case Ping(_, _) => APing
    case EndSub(_, unsubscribe, _) => if unsubscribe then AnUnsubscribe else AnEnd
    case CloseConn(_, _) => AClose
  }

  /** b' has the requests of b, and then only requests of these kinds. */
  ghost predicate Adds(b: Broker, b': Broker, kinds: set<Kind>) {
    && |b.log| <= |b'.log|
    && (forall i :: 0 <= i < |b.log| ==> b'.log[i] == b.log[i])
    && (forall i :: |b.log| <= i < |b'.log| ==> KindOf(b'.log[i]) in kinds)
  }

  // ---------------------------------------------------------------- removing

  /** Unsubscribe and Closesubscribe delete the record and nothing else, and send one request exactly if there
      is a handle: to unsubscribe or to close, as called. */
  lemma RemoveExactly(env: Env, s: State, t: Token, unsubscribe: bool)
    ensures var r, n, b, b' := Remove(env, s, t, unsubscribe), |s.broker.log|, s.broker,
                               Remove(env, s, t, unsubscribe).state.broker;
      && (r.ok <==> t in s.subs)
      && (!r.ok ==> r.state == s)
      && r.state == s.(subs := s.subs - {t}, broker := b')
      && b'.conns == b.conns && b'.closed == b.closed
      && (if t in s.subs && s.subs[t].handle.Some? then
            var h := s.subs[t].handle.value;
            && Appends(b, b', [EndSub(h, unsubscribe, env.ok(n))])
            && (forall g :: g in b'.active <==> g in b.active && !(g == h && env.ok(n)))
          else b' == b)
      && (forall g :: g in b'.active ==> g in b.active && b'.active[g] == b.active[g])
  {
    if t !in s.subs { assert s.subs - {t} == s.subs; }
  }

  // ---------------------------------------------------------------- closing

  /** One close request per stored handle, in the order ord of their tokens, and then one for the connection. */
  ghost predicate LogClosed(env: Env, s: State, b': Broker, ord: seq<Token>) {
    var n := |s.broker.log|;
    && Distinct(ord)
    && (forall t :: t in ord <==> t in s.subs && s.subs[t].handle.Some?)
    && |b'.log| == n + |ord| + (if s.conn.Some? then 1 else 0)
    && (forall i :: 0 <= i < n ==> b'.log[i] == s.broker.log[i])
    && (forall i :: n <= i < n + |ord| ==> b'.log[i] == EndSub(s.subs[ord[i - n]].handle.value, false, env.ok(i)))
    && (s.conn.Some? ==> b'.log[n + |ord|] == CloseConn(s.conn.value, env.ok(n + |ord|)))
  }

  /** The same for the tokens of todo, before the connection. */
  ghost predicate LogEnded(env: Env, s: State, s': State, todo: set<Token>, ord: seq<Token>) {
    var n := |s.broker.log|;
    && Distinct(ord)
    && (forall t :: t in ord <==> t in todo && t in s.subs && s.subs[t].handle.Some?)
    && |s'.broker.log| == n + |ord|
    && (forall i :: 0 <= i < n ==> s'.broker.log[i] == s.broker.log[i])
    && (forall i :: n <= i < n + |ord| ==>
          s'.broker.log[i] == EndSub(s.subs[ord[i - n]].handle.value, false, env.ok(i)))
  }

  lemma {:induction false} CloseSubsExactly(env: Env, s: State, todo: set<Token>) returns (ord: seq<Token>)
    requires Fair(env) && todo <= s.subs.Keys
    ensures LogEnded(env, s, CloseSubs(env, s, todo), todo, ord)
    decreases |todo|
  {
    if todo == {} { return []; }
    var t := env.pick(|s.broker.log|, todo);
    var s1 := CloseSub1(env, s, t);
    var rest := CloseSubsExactly(env, s1, todo - {t});
    ord := if s.subs[t].handle.Some? then [t] + rest else rest;
    EndedCons(env, s, t, s1, CloseSubs(env, s, todo), todo, rest);
  }

  lemma EndedCons(env: Env, s: State, t: Token, s1: State, s': State, todo: set<Token>, rest: seq<Token>)
    requires t in todo && todo <= s.subs.Keys && s1 == CloseSub1(env, s, t) && LogEnded(env, s1, s', todo - {t}, rest)
    ensures LogEnded(env, s, s', todo, if s.subs[t].handle.Some? then [t] + rest else rest)
  {
    if s.subs[t].handle.Some? {
      hide LogEnded;
      EndedFirst(env, s, t, s1, s', todo, rest);
    }
  }

  lemma EndedFirst(env: Env, s: State, t: Token, s1: State, s': State, todo: set<Token>, rest: seq<Token>)
    requires t in todo && todo <= s.subs.Keys && s.subs[t].handle.Some? && s1.subs.Keys == s.subs.Keys
    requires forall u :: u in s.subs && u != t ==> s1.subs[u] == s.subs[u]
    requires s1.broker.log == s.broker.log + [EndSub(s.subs[t].handle.value, false, env.ok(|s.broker.log|))]
    requires LogEnded(env, s1, s', todo - {t}, rest)
    ensures LogEnded(env, s, s', todo, [t] + rest)
  {
    var n, ord := |s.broker.log|, [t] + rest;
    assert forall u :: u in ord <==> u == t || u in rest;
    forall i | n <= i < n + |ord|
      ensures s'.broker.log[i] == EndSub(s.subs[ord[i - n]].handle.value, false, env.ok(i))
    {
      if i > n {
        assert ord[i - n] == rest[i - (n + 1)] && rest[i - (n + 1)] in rest;
        assert s1.subs[ord[i - n]] == s.subs[ord[i - n]];
      }
    }
  }

  lemma CloseExactly(env: Env, s: State) returns (ord: seq<Token>)
    requires Fair(env)
    ensures LogClosed(env, s, Close(env, s).broker, ord)
  {
    ord := CloseSubsExactly(env, s, s.subs.Keys);
    CloseSubsShape(env, s, s.subs.Keys);
    hide CloseSubs;
  }

  // ---------------------------------------------------------------- reconnecting

  /** A reconnect keeps a connection without a word, and otherwise dials; it sends nothing but its connect
      request and subscribe requests. */
  lemma ReconnectExactly(env: Env, s: State)
    requires Fair(env) && Inv(env, s)
    ensures var r, n, c := Reconnect(env, s), |s.broker.log|, s.broker.conns;
      && (s.conn.Some? ==> r == Outcome(s, true))
      && (s.conn.None? ==> Redials(env, s, r.state) && (r.ok <==> env.ok(n)))
      && Adds(s.broker, r.state.broker, {ADial, ASubscribe})
  {
    if s.conn.None? {
      DialCounts(env, s);
      DialCloses(env, s);
      hide Reconnect, Inv;
    }
  }

  /** From a state without a connection: one connect request, and if it is accepted one subscribe request for
      every record, on a new connection. */
  ghost predicate Redials(env: Env, s: State, s': State) {
    var n, c := |s.broker.log|, s.broker.conns;
    && (s'.conn == if env.ok(n) then Some(c) else None)
    && n < |s'.broker.log| && (forall i :: 0 <= i < n ==> s'.broker.log[i] == s.broker.log[i])
    && s'.broker.log[n] == Connect(s'.conn)
    && (if env.ok(n) then OnePerRecord(s'.broker, n + 1, c, s.subs)
        else s' == s.(broker := s'.broker) && |s'.broker.log| == n + 1)
    && s'.broker.closed == s.broker.closed && SameRequests(s, s')
    && s'.broker.conns == if env.ok(n) then c + 1 else c
  }

  lemma DialCloses(env: Env, s: State)
    requires Fair(env) && Inv(env, s) && s.conn.None?
    ensures var s' := Reconnect(env, s).state;
      && s'.broker.closed == s.broker.closed && SameRequests(s, s')
      && s'.broker.conns == (if env.ok(|s.broker.log|) then s.broker.conns + 1 else s.broker.conns)
      && (!env.ok(|s.broker.log|) ==> s' == s.(broker := s'.broker))
  {
    ReconnectKeeps(env, s);
    if Accepted(env, s.broker) { DialPasses(env, s); }
  }

  /** Connect on a new client makes one connect request, and keeps the client whatever the answer. */
  lemma ConnectExactly(env: Env)
    requires Fair(env)
    ensures var s, conn := Init(env), if env.ok(0) then Some(0) else None;
      && s.conn == conn && s.subs == map[] && s.nextToken == 0
      && s.broker.log == [Connect(conn)] && s.broker.conns == (if env.ok(0) then 1 else 0)
      && s.broker.closed == {} && s.broker.active == map[]
  {
  }

  // ---------------------------------------------------------------- publishing

  /** internalPublish reports success exactly when there is a connection, dialed if need be, and the broker
      accepts the message; it sends the message once, on that connection, and gives the connection
      up exactly when the broker refuses. */
  lemma PublishExactly(env: Env, s: State)
    requires Fair(env) && Inv(env, s)
    ensures var r, p := Reconnect(env, s), PublishOnce(env, s);
      var n := |r.state.broker.log|;
      && (p.ok <==> r.ok && env.ok(n))
      && (!r.ok ==> p.state == r.state)
      && (r.ok ==>
            && n < |p.state.broker.log|
            && (forall i :: 0 <= i < n ==> p.state.broker.log[i] == r.state.broker.log[i])
            && p.state.broker.log[n] == Publish(r.state.conn.value, env.ok(n))
            && (forall i :: n < i < |p.state.broker.log| ==> !p.state.broker.log[i].Publish?))
      && (p.ok ==> |p.state.broker.log| == n + 1 &&
                   p.state == r.state.(broker := r.state.broker.(log := p.state.broker.log)))
      && (r.ok && !p.ok ==> p.state.conn.None? && r.state.conn.value in p.state.broker.closed)
  {
    var r := Reconnect(env, s);
    hide Reconnect, Inv;
    if r.ok {
      var s1 := r.state.(broker := SendPublish(env, r.state.broker, r.state.conn.value));
      CloseShape(env, s1);
      var ord := CloseExactly(env, s1);
      ClosesQuietly(env, s1, Close(env, s1).broker, ord);
      hide Close;
    }
  }

  lemma ClosesQuietly(env: Env, s: State, b': Broker, ord: seq<Token>)
    requires LogClosed(env, s, b', ord)
    ensures Adds(s.broker, b', {AnEnd, AClose})
  {
    forall i | |s.broker.log| <= i < |b'.log|
      ensures KindOf(b'.log[i]) in {AnEnd, AClose}
    {
      var k := i - |s.broker.log|;
      if k < |ord| { assert ord[k] in ord && b'.log[i].EndSub?; }
    }
  }

  // ---------------------------------------------------------------- the reconnect loop

  /** A turn of the loop without subscriptions does nothing; one whose ping is accepted does nothing else; one
      whose ping is refused gives the connection up, having sent nothing but the ping and closes. */
  lemma TickExactly(env: Env, s: State)
    requires Fair(env)
    ensures var s', n, b := Tick(env, s), |s.broker.log|, s.broker;
      && (s.subs == map[] ==> s' == s)
      && (s.subs != map[] && s.conn.Some? && env.ok(n) ==>
            s' == s.(broker := b.(log := b.log + [Ping(s.conn.value, true)])))
      && (s.subs != map[] && s.conn.Some? && !env.ok(n) ==>
            exists s0 :: Pinged(env, s, s0) && s' == Reconnect(env, s0).state)
      && (s.subs != map[] && s.conn.None? ==> s' == Reconnect(env, s).state)
  {
    if s.subs != map[] && s.conn.Some? && !env.ok(|s.broker.log|) {
      var s1 := s.(broker := SendPing(env, s.broker, s.conn.value));
      CloseShape(env, s1);
      var ord := CloseExactly(env, s1);
      ClosesQuietly(env, s1, Close(env, s1).broker, ord);
      hide Close, Reconnect;
      assert Pinged(env, s, Close(env, s1));
    }
  }

  /** After a refused ping and the close that follows. */
  ghost predicate Pinged(env: Env, s: State, s': State)
    requires s.conn.Some?
  {
    var n := |s.broker.log|;
    && s'.conn.None? && s.conn.value in s'.broker.closed && s'.broker.conns == s.broker.conns && SameRequests(s, s')
    && n < |s'.broker.log| && (forall i :: 0 <= i < n ==> s'.broker.log[i] == s.broker.log[i])
    && s'.broker.log[n] == Ping(s.conn.value, false)
    && (forall i :: n < i < |s'.broker.log| ==> KindOf(s'.broker.log[i]) in {AnEnd, AClose})
  }

  // ---------------------------------------------------------------- subscribing

  /** A QueueSubscribe whose connection and subscribe are accepted: one request with the caller's content on the
      current connection, a live subscription, a record of its handle, and no other change. */
  ghost predicate Subscribed(env: Env, r: State, s': State, t: Token, req: SubReq)
    requires r.conn.Some?
  {
    var n := |r.broker.log|;
    && s'.conn == r.conn && s'.nextToken == r.nextToken && s'.subs == r.subs[t := Rec(req, Some(n))]
    && s'.broker.conns == r.broker.conns && s'.broker.closed == r.broker.closed
    && |s'.broker.log| == n + 1 && (forall i :: 0 <= i < n ==> s'.broker.log[i] == r.broker.log[i])
    && SentAt(s'.broker, n, r.conn.value, t, req)
    && Live(s', t, n)
    && (forall h :: h in r.broker.active && h != n ==>
          h in s'.broker.active && s'.broker.active[h] == r.broker.active[h])
    && (forall h :: h in s'.broker.active ==> h == n || h in r.broker.active)
  }

  /** Otherwise: the connection is given up and dialed anew, and every record, the new one included, is
      subscribed again if that is accepted. */
  ghost predicate Recovered(env: Env, r: State, s0: State, s': State, t: Token, req: SubReq) {
    && s0.conn.None? && s0.subs.Keys == r.subs.Keys + {t} && s0.subs[t].req == req
    && s0.broker.conns == r.broker.conns
    && (r.conn.Some? ==>
          && r.conn.value in s0.broker.closed
          && SentAt(s0.broker, |r.broker.log|, r.conn.value, t, req))
    && |r.broker.log| <= |s0.broker.log|
    && (forall i :: 0 <= i < |r.broker.log| ==> s0.broker.log[i] == r.broker.log[i])
    && (forall i :: |r.broker.log| + (if r.conn.Some? then 1 else 0) <= i < |s0.broker.log| ==>
          KindOf(s0.broker.log[i]) in {AnEnd, AClose})
    && Redials(env, s0, s')
  }

  lemma SubscribeExactly(env: Env, s: State, req: SubReq)
    requires Fair(env) && Inv(env, s)
    ensures var t, s' := s.nextToken, QueueSubscribe(env, s, req);
      var r := Reconnect(env, s.(nextToken := t + 1)).state;
      if r.conn.Some? && env.ok(|r.broker.log|) then Subscribed(env, r, s', t, req)
      else exists s0 :: Recovered(env, r, s0, s', t, req)
  {
    hide Inv, Reconnect, Close, QueueSubscribe, Unused, Register, Recovered, Subscribed;
    var t := s.nextToken;
    var s1 := s.(nextToken := t + 1);
    BumpKeeps(env, s);
    ReconnectKeeps(env, s1);
    ReconnectUnused(env, s1, t);
    var r := Reconnect(env, s1).state;
    SubscribeUnfolds(env, s, req);
    RegisterKeeps(env, r, t, req);
    RegisterHandle(env, r, t, req);
    if r.conn.Some? && env.ok(|r.broker.log|) {
      RegisterAccepted(env, r, t, req);
    } else {
      RecoverExactly(env, r, t, req);
      assert Recovered(env, r, Close(env, Register(env, r, t, req)), QueueSubscribe(env, s, req), t, req);
    }
  }

  lemma RecoverExactly(env: Env, r: State, t: Token, req: SubReq)
    requires Fair(env) && Inv(env, Register(env, r, t, req))
    ensures var s0 := Close(env, Register(env, r, t, req)); Recovered(env, r, s0, Reconnect(env, s0).state, t, req)
  {
    hide Inv, Reconnect, Close, Register, Redials, SentAt, KindOf;
    var s2 := Register(env, r, t, req);
    var s0 := Close(env, s2);
    RegisterSends(env, r, t, req);
    CloseShape(env, s2);
    CloseKeeps(env, s2);
    CloseAdds(env, s2);
    DialAgain(env, s0);
    if r.conn.Some? { SentStays(s2.broker, s0.broker, |r.broker.log|, r.conn.value, t, req); }
  }

  lemma CloseAdds(env: Env, s: State)
    requires Fair(env)
    ensures Adds(s.broker, Close(env, s).broker, {AnEnd, AClose})
  {
    var ord := CloseExactly(env, s);
    ClosesQuietly(env, s, Close(env, s).broker, ord);
  }

  lemma SentStays(b: Broker, b': Broker, i: nat, c: ConnId, t: Token, req: SubReq)
    requires SentAt(b, i, c, t, req) && i < |b'.log| && b'.log[i] == b.log[i]
    ensures SentAt(b', i, c, t, req)
  {
  }

  lemma RegisterHandle(env: Env, r: State, t: Token, req: SubReq)
    ensures var s2 := Register(env, r, t, req);
      t in s2.subs && (s2.subs[t].handle.None? <==> r.conn.None? || !env.ok(|r.broker.log|))
  {
  }

  lemma RegisterAccepted(env: Env, r: State, t: Token, req: SubReq)
    requires r.conn.Some? && env.ok(|r.broker.log|)
    ensures Subscribed(env, r, Register(env, r, t, req), t, req)
  {
  }

  lemma RegisterSends(env: Env, r: State, t: Token, req: SubReq)
    ensures var s2 := Register(env, r, t, req);
      && (if r.conn.None? then s2.broker == r.broker
          else |s2.broker.log| == |r.broker.log| + 1 && SentAt(s2.broker, |r.broker.log|, r.conn.value, t, req))
      && (forall i :: 0 <= i < |r.broker.log| ==> s2.broker.log[i] == r.broker.log[i])
      && s2.broker.conns == r.broker.conns && s2.conn == r.conn
      && s2.subs.Keys == r.subs.Keys + {t} && s2.subs[t].req == req
  {
  }

  lemma DialAgain(env: Env, s: State)
    requires Fair(env) && Inv(env, s) && s.conn.None?
    ensures Redials(env, s, Reconnect(env, s).state)
  {
    ReconnectExactly(env, s);
  }

  // ---------------------------------------------------------------- publishing with retries

  /** The state before attempt number i of a publish. */
  ghost function Before(env: Env, s: State, i: nat): State
    requires Fair(env)
  {
    if i == 0 then s else PublishOnce(env, Before(env, s, i - 1)).state
  }

  /** Whether attempt number i succeeds. */
  ghost function Outcomes(env: Env, s: State): nat -> bool
    requires Fair(env)
  {
    (i: nat) => PublishOnce(env, Before(env, s, i)).ok
  }

  /** How often the broker has accepted a message. */
  function Delivered(log: seq<Event>): nat {
    if log == [] then 0
    else Delivered(log[..|log| - 1]) + if log[|log| - 1].Publish? && log[|log| - 1].ok then 1 else 0
  }

  lemma DeliveredOne(log: seq<Event>, e: Event)
    ensures Delivered(log + [e]) == Delivered(log) + if e.Publish? && e.ok then 1 else 0
  {
    assert (log + [e])[..|log|] == log;
  }

  lemma {:induction false} DeliveredGrows(log: seq<Event>, log': seq<Event>)
    requires |log| <= |log'| && log'[..|log|] == log
    requires forall i :: |log| <= i < |log'| ==> !log'[i].Publish?
    ensures Delivered(log') == Delivered(log)
    decreases |log'|
  {
    hide Delivered;
    if |log| == |log'| {
      assert log' == log;
    } else {
      var rest := log'[..|log'| - 1];
      assert rest[..|log|] == log && log' == rest + [log'[|log'| - 1]];
      DeliveredGrows(log, rest);
      DeliveredOne(rest, log'[|log'| - 1]);
    }
  }

  lemma ReconnectAdds(env: Env, s: State)
    requires Fair(env) && Inv(env, s)
    ensures var b, b1 := s.broker.log, Reconnect(env, s).state.broker.log;
      |b| <= |b1| && b1[..|b|] == b && forall i :: |b| <= i < |b1| ==> !b1[i].Publish?
  {
    ReconnectExactly(env, s);
    hide Reconnect, Inv, Redials;
  }

  lemma PublishAdds(env: Env, s: State)
    requires Fair(env) && Inv(env, s)
    ensures var r, p := Reconnect(env, s), PublishOnce(env, s);
      var b, b' := r.state.broker.log, p.state.broker.log;
      && (!r.ok ==> !p.ok && b' == b)
      && (r.ok ==>
            && |b| < |b'| && b'[..|b| + 1] == b + [Publish(r.state.conn.value, p.ok)]
            && (forall i :: |b| < i < |b'| ==> !b'[i].Publish?))
  {
    PublishExactly(env, s);
    hide Reconnect, PublishOnce, Inv;
  }

  /** An attempt delivers the message once if it reports success, and not at all otherwise. */
  lemma AttemptDelivers(env: Env, s: State)
    requires Fair(env) && Inv(env, s)
    ensures var p := PublishOnce(env, s);
      Delivered(p.state.broker.log) == Delivered(s.broker.log) + if p.ok then 1 else 0
  {
    PublishAdds(env, s);
    ReconnectAdds(env, s);
    hide Reconnect, PublishOnce, Inv, Delivered;
    var r, p := Reconnect(env, s), PublishOnce(env, s);
    var b1, b2 := r.state.broker.log, p.state.broker.log;
    DeliveredGrows(s.broker.log, b1);
    if r.ok {
      DeliveredOne(b1, Publish(r.state.conn.value, p.ok));
      DeliveredGrows(b2[..|b1| + 1], b2);
    }
  }

  lemma {:induction false} BeforeDelivers(env: Env, s: State, n: nat)
    requires Fair(env) && Inv(env, s) && forall i: nat :: i < n ==> !Outcomes(env, s)(i)
    ensures Inv(env, Before(env, s, n)) && Delivered(Before(env, s, n).broker.log) == Delivered(s.broker.log)
    decreases n
  {
    hide Inv, PublishOnce, Delivered;
    if n > 0 {
      BeforeDelivers(env, s, n - 1);
      assert !Outcomes(env, s)(n - 1);
      AttemptDelivers(env, Before(env, s, n - 1));
      PublishKeeps(env, Before(env, s, n - 1));
    }
  }

  /** A publish with retries delivers its message exactly once if it reports success, and otherwise never. */
  lemma DeliveredOnce(env: Env, s: State, delays: seq<nat>, aborted: nat -> bool)
    requires Fair(env) && Inv(env, s)
    ensures var r := Retry.Retry(delays, Outcomes(env, s), aborted);
      Delivered(Before(env, s, r.attempts).broker.log) == Delivered(s.broker.log) + if r.ok then 1 else 0
  {
    hide Inv, PublishOnce, Delivered, Retry.Retry;
    var r := Retry.Retry(delays, Outcomes(env, s), aborted);
    RetryExactly(delays, Outcomes(env, s), aborted, r);
    var last: nat := r.attempts - 1;
    BeforeDelivers(env, s, last);
    AttemptDelivers(env, Before(env, s, last));
  }

  // ---------------------------------------------------------------- which requests a call can send

  function KindsOf(op: Op): set<Kind> {
    match op
    case Subscribing(_) => {ADial, ASubscribe, AnEnd, AClose}
    case Removing(_, unsubscribe) => {if unsubscribe then AnUnsubscribe else AnEnd}
    case Publishing => {ADial, ASubscribe, APublish, AnEnd, AClose}
    case Ticking => {APing, ADial, ASubscribe, AnEnd, AClose}
    case Losing => {AnEnd, AClose}
  }

  lemma AddsTrans(b: Broker, b1: Broker, b2: Broker, k1: set<Kind>, k2: set<Kind>, kinds: set<Kind>)
    requires Adds(b, b1, k1) && Adds(b1, b2, k2) && k1 + k2 <= kinds
    ensures Adds(b, b2, kinds)
  {
    hide KindOf;
  }

  lemma SubscribeAdds(env: Env, s: State, req: SubReq)
    requires Fair(env) && Inv(env, s)
    ensures Adds(s.broker, QueueSubscribe(env, s, req).broker, KindsOf(Subscribing(req)))
  {
    hide Inv, Reconnect, Close, QueueSubscribe, Register, Unused, Adds;
    var t := s.nextToken;
    var s1 := s.(nextToken := t + 1);
    BumpKeeps(env, s);
    ReconnectKeeps(env, s1);
    ReconnectUnused(env, s1, t);
    ReconnectExactly(env, s1);
    var r := Reconnect(env, s1).state;
    SubscribeUnfolds(env, s, req);
    RegisterKeeps(env, r, t, req);
    var s2 := Register(env, r, t, req);
    assert Adds(r.broker, s2.broker, {ASubscribe}) by { RegisterAdds(env, r, t, req); }
    var kinds := KindsOf(Subscribing(req));
    AddsTrans(s.broker, r.broker, s2.broker, {ADial, ASubscribe}, {ASubscribe}, kinds);
    CloseAdds(env, s2);
    CloseKeeps(env, s2);
    ReconnectExactly(env, Close(env, s2));
    AddsTrans(s.broker, s2.broker, Close(env, s2).broker, kinds, {AnEnd, AClose}, kinds);
    AddsTrans(s.broker, Close(env, s2).broker, Reconnect(env, Close(env, s2)).state.broker,
              kinds, {ADial, ASubscribe}, kinds);
  }

  lemma RegisterAdds(env: Env, r: State, t: Token, req: SubReq)
    ensures Adds(r.broker, Register(env, r, t, req).broker, {ASubscribe})
  {
  }

  lemma SendAdds(env: Env, s: State, e: Event)
    ensures Adds(s.broker, s.broker.(log := s.broker.log + [e]), {KindOf(e)})
  {
  }

  lemma PublishKinds(env: Env, s: State)
    requires Fair(env) && Inv(env, s)
    ensures Adds(s.broker, PublishOnce(env, s).state.broker, KindsOf(Publishing))
  {
    hide Inv, Reconnect, Close, Adds;
    ReconnectExactly(env, s);
    var r := Reconnect(env, s);
    var kinds := KindsOf(Publishing);
    AddsSame(s.broker);
    AddsTrans(s.broker, s.broker, r.state.broker, {}, {ADial, ASubscribe}, kinds);
    if r.ok {
      var e := Publish(r.state.conn.value, Accepted(env, r.state.broker));
      var s1 := r.state.(broker := SendPublish(env, r.state.broker, r.state.conn.value));
      SendAdds(env, r.state, e);
      AddsTrans(s.broker, r.state.broker, s1.broker, kinds, {APublish}, kinds);
      CloseAdds(env, s1);
      AddsTrans(s.broker, s1.broker, Close(env, s1).broker, kinds, {AnEnd, AClose}, kinds);
    }
  }

  lemma AddsSame(b: Broker)
    ensures Adds(b, b, {})
  {
  }

  lemma TickKinds(env: Env, s: State)
    requires Fair(env) && Inv(env, s)
    ensures Adds(s.broker, Tick(env, s).broker, KindsOf(Ticking))
  {
    hide Inv, Reconnect, Close, Adds;
    var kinds := KindsOf(Ticking);
    AddsSame(s.broker);
    AddsTrans(s.broker, s.broker, s.broker, {}, {}, kinds);
    if s.conn.Some? {
      var s1 := s.(broker := SendPing(env, s.broker, s.conn.value));
      SendAdds(env, s, Ping(s.conn.value, Accepted(env, s.broker)));
      AddsTrans(s.broker, s.broker, s1.broker, {}, {APing}, kinds);
      CloseAdds(env, s1);
      AddsTrans(s.broker, s1.broker, Close(env, s1).broker, kinds, {AnEnd, AClose}, kinds);
    }
    PingKeeps(env, s);
    var s0 := PingOnce(env, s);
    hide PingOnce;
    ReconnectExactly(env, s0);
    AddsTrans(s.broker, s0.broker, Reconnect(env, s0).state.broker, kinds, {ADial, ASubscribe}, kinds);
  }

  /** The kinds of requests each call can send. */
  lemma DoAdds(env: Env, s: State, op: Op)
    requires Fair(env) && Inv(env, s)
    ensures Adds(s.broker, Do(env, s, op).broker, KindsOf(op))
  {
    hide QueueSubscribe, PublishOnce, Tick, Close, Inv;
    match op
    case Subscribing(req) => SubscribeAdds(env, s, req);
    case Removing(t, unsubscribe) => RemoveExactly(env, s, t, unsubscribe);
    case Publishing => PublishKinds(env, s);
    case Ticking => TickKinds(env, s);
    case Losing => CloseAdds(env, s);
  }

  /** A durable subscription is given up only by Unsubscribe: no other call ever sends that request. */
  lemma {:induction false} NoUnsubscribeUnasked(env: Env, s: State, ops: seq<Op>)
    requires Fair(env) && Inv(env, s) && forall op :: op in ops && op.Removing? ==> !op.unsubscribe
    ensures Adds(s.broker, Run(env, s, ops).broker,
                 {ADial, ASubscribe, APublish, APing, AnEnd, AClose})
    decreases |ops|
  {
    hide Inv, Do, Adds;
    var kinds := {ADial, ASubscribe, APublish, APing, AnEnd, AClose};
    if ops == [] {
      AddsSame(s.broker);
      AddsTrans(s.broker, s.broker, s.broker, {}, {}, kinds);
    } else {
      var s1 := Do(env, s, ops[0]);
      assert ops[0] in ops;
      DoAdds(env, s, ops[0]);
      DoKeeps(env, s, ops[0]);
      NoUnsubscribeUnasked(env, s1, ops[1..]);
      AddsTrans(s.broker, s1.broker, Run(env, s1, ops[1..]).broker, KindsOf(ops[0]), kinds, kinds);
    }
  }
}
