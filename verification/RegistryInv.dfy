/** Closed forms of the resubscription and close loops, and what every API call keeps. */
module RegistryInv {
  import opened Base
  import opened Registry

  // ---------------------------------------------------------------- enumeration order

  /** The order in which a map with keys todo is enumerated when every visit makes one request. */
  ghost function Order(env: Env, n: nat, todo: set<Token>): seq<Token>
    requires Fair(env)
    decreases |todo|
  {
    if todo == {} then []
    else
      var t := env.pick(n, todo);
      [t] + Order(env, n + 1, todo - {t})
  }

  ghost predicate Distinct(q: seq<Token>) {
    forall i, j :: 0 <= i < j < |q| ==> q[i] != q[j]
  }

  lemma {:induction false} OrderEnumerates(env: Env, n: nat, todo: set<Token>)
    requires Fair(env)
    ensures |Order(env, n, todo)| == |todo|
    ensures forall t :: t in Order(env, n, todo) <==> t in todo
    ensures Distinct(Order(env, n, todo))
    decreases |todo|
  {
    if todo != {} {
      var t := env.pick(n, todo);
      OrderEnumerates(env, n + 1, todo - {t});
    }
  }

  // ---------------------------------------------------------------- content of a request

  /** The request that asks the broker for what req says: a group subscription exactly if req names a queue. */
  predicate Carries(w: Wire, req: SubReq) {
    && w.subject == req.subject && w.options == req.options && w.cb == req.cb
    && (w.Group? <==> req.queue.Some? && req.queue.value != "")
    && (w.Group? ==> w.queue == req.queue.value)
  }

  /** There is one such request, and it is the one that is sent. */
  lemma WireMeans(w: Wire, req: SubReq)
    ensures Carries(w, req) <==> w == WireOf(req)
  {
  }

  // ---------------------------------------------------------------- one turn of a loop over the registry

  lemma Dialed(env: Env, s: State, s1: State)
    requires Fair(env) && s.conn.None? && Accepted(env, s.broker)
    requires s1 == s.(conn := Some(s.broker.conns), broker := Dial(env, s.broker))
    ensures Reconnect(env, s) == Outcome(Replay(env, s1, s1.subs.Keys), true)
  {
    hide Replay;
  }

  lemma ReplayTurn(env: Env, s: State, todo: set<Token>)
    requires Fair(env) && s.conn.Some? && todo <= s.subs.Keys
    ensures todo == {} ==> Replay(env, s, todo) == s
    ensures todo != {} ==>
      var t := env.pick(|s.broker.log|, todo);
      t in todo && |todo - {t}| < |todo| && Replay(env, s, todo) == Replay(env, Replay1(env, s, t), todo - {t})
  {
  }

  lemma CloseTurn(env: Env, s: State, todo: set<Token>)
    requires Fair(env) && todo <= s.subs.Keys
    ensures todo == {} ==> CloseSubs(env, s, todo) == s
    ensures todo != {} ==>
      var t := env.pick(|s.broker.log|, todo);
      t in todo && |todo - {t}| < |todo| && CloseSubs(env, s, todo) == CloseSubs(env, CloseSub1(env, s, t), todo - {t})
  {
  }

  // ---------------------------------------------------------------- closed form of a resubscription

  function Answer(env: Env, n: nat): Option<Handle> {
    if env.ok(n) then Some(n) else None
  }

  /** One subscribe request per token of ord, in that order, each with the stored request. */
  ghost predicate LogReplayed(env: Env, c: ConnId, subs: map<Token, Rec>, b: Broker, b': Broker, ord: seq<Token>)
    requires forall t :: t in ord ==> t in subs
  {
    var n := |b.log|;
    && b'.conns == b.conns && b'.closed == b.closed
    && |b'.log| == n + |ord|
    && (forall i :: 0 <= i < n ==> b'.log[i] == b.log[i])
    && (forall i :: n <= i < n + |ord| ==>
          b'.log[i] == Subscribe(c, ord[i - n], WireOf(subs[ord[i - n]].req), Answer(env, i)))
  }

  /** One active subscription for every accepted request. */
  ghost predicate ActiveReplayed(env: Env, c: ConnId, subs: map<Token, Rec>, b: Broker, b': Broker, ord: seq<Token>)
    requires forall t :: t in ord ==> t in subs
  {
    var n := |b.log|;
    && (forall h :: h in b'.active ==>
          if h < n then h in b.active && b'.active[h] == b.active[h]
          else h < n + |ord| && env.ok(h) && b'.active[h] == Active(c, ord[h - n], WireOf(subs[ord[h - n]].req)))
    && (forall h :: h in b.active ==> h in b'.active && b'.active[h] == b.active[h])
    && (forall h: nat :: n <= h < n + |ord| && env.ok(h) ==> h in b'.active)
  }

  /** The requests stay; in C# the handles of ord are replaced by the answers. */
  ghost predicate SubsReplayed(env: Env, n: nat, subs: map<Token, Rec>, subs': map<Token, Rec>, ord: seq<Token>)
    requires forall t :: t in ord ==> t in subs
  {
    && subs'.Keys == subs.Keys
    && (forall t :: t in subs && t !in ord ==> subs'[t] == subs[t])
    && (forall k :: 0 <= k < |ord| ==>
          subs'[ord[k]] == if env.writesBack then Rec(subs[ord[k]].req, Answer(env, n + k)) else subs[ord[k]])
  }

  ghost predicate Replayed(env: Env, s: State, s': State, ord: seq<Token>)
    requires s.conn.Some? && forall t :: t in ord ==> t in s.subs
  {
    && s'.conn == s.conn && s'.nextToken == s.nextToken
    && LogReplayed(env, s.conn.value, s.subs, s.broker, s'.broker, ord)
    && ActiveReplayed(env, s.conn.value, s.subs, s.broker, s'.broker, ord)
    && SubsReplayed(env, |s.broker.log|, s.subs, s'.subs, ord)
  }

  ghost predicate HandlesOld(b: Broker) {
    forall h :: h in b.active ==> h < |b.log|
  }

  lemma LogCons(env: Env, c: ConnId, subs: map<Token, Rec>, subs1: map<Token, Rec>, b: Broker, b': Broker,
                t: Token, rest: seq<Token>)
    requires t in subs && t !in rest && forall u :: u in rest ==> u in subs && u in subs1 && subs1[u] == subs[u]
    requires LogReplayed(env, c, subs1, SendSubscribe(env, b, c, t, WireOf(subs[t].req)), b', rest)
    ensures LogReplayed(env, c, subs, b, b', [t] + rest)
  {
    var n, ord := |b.log|, [t] + rest;
    forall i | n <= i < n + |ord|
      ensures b'.log[i] == Subscribe(c, ord[i - n], WireOf(subs[ord[i - n]].req), Answer(env, i))
    {
      if i > n { assert ord[i - n] == rest[i - (n + 1)]; }
    }
  }

  lemma ActiveCons(env: Env, c: ConnId, subs: map<Token, Rec>, subs1: map<Token, Rec>, b: Broker, b': Broker,
                   t: Token, rest: seq<Token>)
    requires t in subs && t !in rest && forall u :: u in rest ==> u in subs && u in subs1 && subs1[u] == subs[u]
    requires HandlesOld(b)
    requires ActiveReplayed(env, c, subs1, SendSubscribe(env, b, c, t, WireOf(subs[t].req)), b', rest)
    ensures ActiveReplayed(env, c, subs, b, b', [t] + rest)
  {
    var n, ord := |b.log|, [t] + rest;
    var b1 := SendSubscribe(env, b, c, t, WireOf(subs[t].req));
    assert |b1.log| == n + 1;
    forall h | h in b'.active && h > n ensures ord[h - n] == rest[h - (n + 1)] {}
    assert forall h :: h in b.active ==> h in b1.active && b1.active[h] == b.active[h];
  }

  lemma SubsCons(env: Env, n: nat, subs: map<Token, Rec>, t: Token, subs': map<Token, Rec>, rest: seq<Token>)
    requires t in subs && t !in rest && forall u :: u in rest ==> u in subs
    requires var subs1 := if env.writesBack then subs[t := subs[t].(handle := Answer(env, n))] else subs;
      SubsReplayed(env, n + 1, subs1, subs', rest)
    ensures SubsReplayed(env, n, subs, subs', [t] + rest)
  {
    var ord := [t] + rest;
    forall k | 0 <= k < |ord|
      ensures subs'[ord[k]] == if env.writesBack then Rec(subs[ord[k]].req, Answer(env, n + k)) else subs[ord[k]]
    {
      if k > 0 { assert ord[k] == rest[k - 1] && n + k == n + 1 + (k - 1); }
    }
  }

  lemma {:induction false} ReplayShape(env: Env, s: State, todo: set<Token>)
    requires Fair(env) && s.conn.Some? && todo <= s.subs.Keys && HandlesOld(s.broker)
    ensures forall t :: t in Order(env, |s.broker.log|, todo) ==> t in s.subs
    ensures Replayed(env, s, Replay(env, s, todo), Order(env, |s.broker.log|, todo))
    decreases |todo|
  {
    hide Replayed, Order, Replay;
    var n := |s.broker.log|;
    OrderEnumerates(env, n, todo);
    ReplayUnfolds(env, s, todo);
    if todo == {} {
      ReplayedNil(env, s);
    } else {
      var t := env.pick(n, todo);
      OrderEnumerates(env, n + 1, todo - {t});
      ReplayShape(env, Replay1(env, s, t), todo - {t});
      ReplayedCons(env, s, t, Order(env, n + 1, todo - {t}), Replay(env, Replay1(env, s, t), todo - {t}));
    }
  }

  lemma ReplayUnfolds(env: Env, s: State, todo: set<Token>)
    requires Fair(env) && s.conn.Some? && todo <= s.subs.Keys && HandlesOld(s.broker)
    ensures todo == {} ==> Order(env, |s.broker.log|, todo) == [] && Replay(env, s, todo) == s
    ensures todo != {} ==>
      var t, s1 := env.pick(|s.broker.log|, todo), Replay1(env, s, env.pick(|s.broker.log|, todo));
      && t in todo && |todo - {t}| < |todo|
      && Order(env, |s.broker.log|, todo) == [t] + Order(env, |s.broker.log| + 1, todo - {t})
      && Replay(env, s, todo) == Replay(env, s1, todo - {t})
      && |s1.broker.log| == |s.broker.log| + 1 && HandlesOld(s1.broker) && s1.subs.Keys == s.subs.Keys
  {
  }

  lemma ReplayedNil(env: Env, s: State)
    requires s.conn.Some? && HandlesOld(s.broker)
    ensures Replayed(env, s, s, [])
  {
  }

  lemma ReplayedCons(env: Env, s: State, t: Token, rest: seq<Token>, s': State)
    requires s.conn.Some? && t in s.subs && t !in rest && HandlesOld(s.broker)
    requires forall u :: u in rest ==> u in s.subs
    requires Replayed(env, Replay1(env, s, t), s', rest)
    ensures Replayed(env, s, s', [t] + rest)
  {
    hide LogReplayed, ActiveReplayed, SubsReplayed;
    var s1 := Replay1(env, s, t);
    LogCons(env, s.conn.value, s.subs, s1.subs, s.broker, s'.broker, t, rest);
    ActiveCons(env, s.conn.value, s.subs, s1.subs, s.broker, s'.broker, t, rest);
    SubsCons(env, |s.broker.log|, s.subs, t, s'.subs, rest);
  }

  // ---------------------------------------------------------------- closed form of closing the subscriptions

  /** Requests were added, none of them a subscribe, and no subscription was created. */
  ghost predicate Winds(b: Broker, b': Broker) {
    && |b.log| <= |b'.log|
    && (forall i :: 0 <= i < |b.log| ==> b'.log[i] == b.log[i])
    && (forall i :: |b.log| <= i < |b'.log| ==> !b'.log[i].Subscribe?)
    && (forall h :: h in b'.active ==> h in b.active && b'.active[h] == b.active[h])
  }

  ghost predicate SameRequests(s: State, s': State) {
    && s'.nextToken == s.nextToken && s'.subs.Keys == s.subs.Keys
    && forall t :: t in s.subs ==> s'.subs[t].req == s.subs[t].req
  }

  lemma {:induction false} CloseSubsShape(env: Env, s: State, todo: set<Token>)
    requires Fair(env) && todo <= s.subs.Keys
    ensures var s' := CloseSubs(env, s, todo);
      && s'.conn == s.conn && s'.broker.conns == s.broker.conns && s'.broker.closed == s.broker.closed
      && SameRequests(s, s') && Winds(s.broker, s'.broker)
      && (forall t :: t in s.subs && t !in todo ==> s'.subs[t] == s.subs[t])
      && (env.writesBack ==> forall t :: t in todo ==> s'.subs[t].handle.None?)
      && (!env.writesBack ==> s'.subs == s.subs)
    decreases |todo|
  {
    if todo != {} {
      var t := env.pick(|s.broker.log|, todo);
      CloseSubsShape(env, CloseSub1(env, s, t), todo - {t});
    }
  }

  lemma CloseShape(env: Env, s: State)
    requires Fair(env)
    ensures var s' := Close(env, s);
      && s'.conn.None? && s'.broker.conns == s.broker.conns
      && s'.broker.closed == s.broker.closed + (if s.conn.Some? then {s.conn.value} else {})
      && SameRequests(s, s') && Winds(s.broker, s'.broker)
      && (env.writesBack ==> forall t :: t in s.subs ==> s'.subs[t].handle.None?)
      && (!env.writesBack ==> s'.subs == s.subs)
  {
    CloseSubsShape(env, s, s.subs.Keys);
  }

  // ---------------------------------------------------------------- invariant

  /** The current connection is the newest, and the only one not closed. */
  ghost predicate ConnInv(s: State) {
    && (s.conn.Some? ==> s.broker.conns == s.conn.value + 1)
    && OnlyOpen(s.broker.conns, s.broker.closed, s.conn)
  }

  /** The log explains every active subscription, and every request for a token has the same content. */
  ghost predicate LogInv(b: Broker, next: Token) {
    && (forall h :: h in b.active ==>
          h < |b.log| && b.log[h] == Subscribe(b.active[h].conn, b.active[h].token, b.active[h].wire, Some(h)))
    && (forall i: nat :: i < |b.log| && b.log[i].Subscribe? ==>
          b.log[i].token < next && b.log[i].conn < b.conns && (b.log[i].got.Some? ==> b.log[i].got.value == i))
    && (forall i, j :: (0 <= i < |b.log| && 0 <= j < |b.log| && b.log[i].Subscribe? && b.log[j].Subscribe? &&
          b.log[i].token == b.log[j].token) ==> b.log[i].wire == b.log[j].wire)
  }

  /** Requests sent for a registered token carry what is stored for it; a stored handle came from one of them. */
  ghost predicate SubsInv(s: State) {
    && (forall t :: t in s.subs ==> t < s.nextToken)
    && (forall i :: 0 <= i < |s.broker.log| && s.broker.log[i].Subscribe? && s.broker.log[i].token in s.subs ==>
          s.broker.log[i].wire == WireOf(s.subs[s.broker.log[i].token].req))
    && (forall t :: t in s.subs && s.subs[t].handle.Some? ==> HandleOf(s.broker, s.subs[t].handle.value, t))
  }

  ghost predicate HandleOf(b: Broker, h: Handle, t: Token) {
    h < |b.log| && b.log[h].Subscribe? && b.log[h].token == t && b.log[h].got == Some(h)
  }

  /** Handle h is an active subscription for t on the current connection. */
  predicate Live(s: State, t: Token, h: Handle) {
    s.conn.Some? && h in s.broker.active && s.broker.active[h].conn == s.conn.value && s.broker.active[h].token == t
  }

  /** A registered token has at most one live subscription. */
  ghost predicate Single(s: State) {
    forall t, h, h' :: (t in s.subs && Live(s, t, h) && Live(s, t, h')) ==> h == h'
  }

  /** The stored handle, if it was obtained on the current connection, names the live subscription. */
  ghost predicate Named(s: State) {
    forall t, h :: (t in s.subs && Current(s, t) && Live(s, t, h)) ==> h == s.subs[t].handle.value
  }

  /** The stored handle was obtained on the current connection. */
  predicate Current(s: State, t: Token)
    requires t in s.subs
  {
    && s.conn.Some? && s.subs[t].handle.Some?
    && var h := s.subs[t].handle.value;
       h < |s.broker.log| && s.broker.log[h].Subscribe? && s.broker.log[h].conn == s.conn.value
  }

  /** A registered token's handle is null or names its live subscription, and a live subscription of a
      registered token is the one its handle names. */
  ghost predicate Agreement(s: State) {
    forall t, h: Handle :: t in s.subs ==> (s.subs[t].handle == Some(h) <==> Live(s, t, h))
  }

  ghost predicate Inv(env: Env, s: State) {
    && ConnInv(s) && LogInv(s.broker, s.nextToken) && SubsInv(s)
    && (if env.writesBack then Agreement(s) else Single(s) && Named(s))
  }

  // ---------------------------------------------------------------- every call keeps it

  /** A connection on which nothing has been requested yet. */
  ghost predicate Untouched(s: State) {
    && s.conn.Some?
    && (forall h :: h in s.broker.active ==> s.broker.active[h].conn != s.conn.value)
    && (forall i :: 0 <= i < |s.broker.log| && s.broker.log[i].Subscribe? ==> s.broker.log[i].conn != s.conn.value)
  }

  ghost predicate Passed(env: Env, s: State, s': State, ord: seq<Token>) {
    && Untouched(s) && LogInv(s.broker, s.nextToken) && SubsInv(s)
    && Distinct(ord) && (forall t :: t in ord <==> t in s.subs) && Replayed(env, s, s', ord)
  }

  lemma ReplayKeepsLog(env: Env, s: State, s': State, ord: seq<Token>)
    requires ConnInv(s) && Passed(env, s, s', ord)
    ensures LogInv(s'.broker, s'.nextToken)
  {
  }

  lemma ReplayKeepsSubs(env: Env, s: State, s': State, ord: seq<Token>)
    requires Passed(env, s, s', ord)
    ensures SubsInv(s') && SameRequests(s, s')
  {
    forall t | t in s.subs ensures t in ord && s'.subs[t].req == s.subs[t].req {}
  }

  /** What is live after the pass: the accepted requests. */
  lemma ReplayedLive(env: Env, s: State, s': State, ord: seq<Token>, t: Token, h: Handle)
    requires Passed(env, s, s', ord)
    ensures var n := |s.broker.log|;
      Live(s', t, h) <==> n <= h < n + |ord| && ord[h - n] == t && env.ok(h)
  {
  }

  lemma ReplayAnswer(env: Env, s: State, s': State, ord: seq<Token>, t: Token) returns (k: nat)
    requires Passed(env, s, s', ord) && env.writesBack && t in s.subs
    ensures k < |ord| && ord[k] == t && t in s'.subs && s'.subs[t].handle == Answer(env, |s.broker.log| + k)
    ensures forall i :: 0 <= i < |ord| && ord[i] == t ==> i == k
  {
    k :| 0 <= k < |ord| && ord[k] == t;
    assert s'.subs[ord[k]] == Rec(s.subs[ord[k]].req, Answer(env, |s.broker.log| + k));
  }

  lemma ReplayAgrees(env: Env, s: State, s': State, ord: seq<Token>, t: Token, h: Handle)
    requires Passed(env, s, s', ord) && env.writesBack && t in s.subs
    ensures t in s'.subs && (s'.subs[t].handle == Some(h) <==> Live(s', t, h))
  {
    hide Live, Passed;
    ReplayedLive(env, s, s', ord, t, h);
    var k := ReplayAnswer(env, s, s', ord, t);
  }

  lemma ReplaySingle(env: Env, s: State, s': State, ord: seq<Token>, t: Token, h: Handle, h': Handle)
    requires Passed(env, s, s', ord) && Live(s', t, h) && Live(s', t, h')
    ensures h == h'
  {
    ReplayedLive(env, s, s', ord, t, h);
    ReplayedLive(env, s, s', ord, t, h');
  }

  /** Go keeps the old handles, and none of them is from the new connection. */
  lemma ReplayNamed(env: Env, s: State, s': State, ord: seq<Token>, t: Token)
    requires Passed(env, s, s', ord) && !env.writesBack && t in s.subs
    ensures t in s'.subs && s'.subs[t] == s.subs[t] && !Current(s', t)
  {
    var k :| 0 <= k < |ord| && ord[k] == t;
    assert s'.subs[ord[k]] == s.subs[ord[k]];
  }

  lemma ReplayKeepsHandles(env: Env, s: State, s': State, ord: seq<Token>)
    requires Passed(env, s, s', ord)
    ensures env.writesBack ==> Agreement(s')
    ensures !env.writesBack ==> Single(s') && Named(s')
  {
    assert s'.subs.Keys == s.subs.Keys;
    hide Passed, Live, Current;
    if env.writesBack {
      forall t, h: Handle | t in s.subs ensures s'.subs[t].handle == Some(h) <==> Live(s', t, h) {
        ReplayAgrees(env, s, s', ord, t, h);
      }
    } else {
      forall t, h, h' | t in s.subs && Live(s', t, h) && Live(s', t, h') ensures h == h' {
        ReplaySingle(env, s, s', ord, t, h, h');
      }
      forall t | t in s.subs ensures !Current(s', t) { ReplayNamed(env, s, s', ord, t); }
    }
  }

  lemma DialKeeps(env: Env, s: State)
    requires Fair(env) && Inv(env, s) && s.conn.None?
    ensures var r := Reconnect(env, s); Inv(env, r.state) && SameRequests(s, r.state)
  {
    var b := Dial(env, s.broker);
    if Accepted(env, s.broker) {
      DialPasses(env, s);
      var s1 := s.(conn := Some(s.broker.conns), broker := b);
      var s' := Reconnect(env, s).state;
      var ord := Order(env, |b.log|, s1.subs.Keys);
      hide Reconnect, Order, Passed;
      assert ConnInv(s');
      ReplayKeepsLog(env, s1, s', ord);
      ReplayKeepsSubs(env, s1, s', ord);
      ReplayKeepsHandles(env, s1, s', ord);
    } else {
      assert Reconnect(env, s).state == s.(broker := b);
    }
  }

  /** A dial that succeeds is followed by one pass over the registry. */
  lemma DialPasses(env: Env, s: State)
    requires Fair(env) && Inv(env, s) && s.conn.None? && Accepted(env, s.broker)
    ensures var s1 := s.(conn := Some(s.broker.conns), broker := Dial(env, s.broker));
      var s' := Reconnect(env, s).state;
      && Passed(env, s1, s', Order(env, |s.broker.log| + 1, s.subs.Keys))
      && ConnInv(s1) && ConnInv(s')
  {
    var s1 := s.(conn := Some(s.broker.conns), broker := Dial(env, s.broker));
    DialUntouched(env, s);
    OrderEnumerates(env, |s1.broker.log|, s1.subs.Keys);
    ReplayShape(env, s1, s1.subs.Keys);
    assert Reconnect(env, s).state == Replay(env, s1, s1.subs.Keys);
    hide Reconnect, Replay, Order, LogInv, SubsInv, Untouched, Distinct, Agreement, Single, Named, ActiveReplayed,
      SubsReplayed;
  }

  lemma DialUntouched(env: Env, s: State)
    requires Inv(env, s) && s.conn.None? && Accepted(env, s.broker)
    ensures var s1 := s.(conn := Some(s.broker.conns), broker := Dial(env, s.broker));
      Untouched(s1) && ConnInv(s1) && LogInv(s1.broker, s1.nextToken) && SubsInv(s1) && HandlesOld(s1.broker)
  {
  }

  lemma ReconnectKeeps(env: Env, s: State)
    requires Fair(env) && Inv(env, s)
    ensures var r := Reconnect(env, s); Inv(env, r.state) && SameRequests(s, r.state)
  {
    if s.conn.None? { DialKeeps(env, s); }
  }

  lemma CloseKeeps(env: Env, s: State)
    requires Fair(env) && Inv(env, s)
    ensures Inv(env, Close(env, s)) && SameRequests(s, Close(env, s)) && Close(env, s).conn.None?
  {
    CloseShape(env, s);
  }

  lemma WindLog(b: Broker, b': Broker, next: Token)
    requires LogInv(b, next) && Winds(b, b') && b'.conns == b.conns
    ensures LogInv(b', next)
  {
  }

  /** s' has some of the records of s, each with its handle or without. */
  ghost predicate Fewer(s: State, s': State) {
    && s'.nextToken == s.nextToken && s'.subs.Keys <= s.subs.Keys
    && forall t :: t in s'.subs ==> s'.subs[t] == s.subs[t] || s'.subs[t] == s.subs[t].(handle := None)
  }

  lemma WindSubs(s: State, s': State)
    requires SubsInv(s) && Winds(s.broker, s'.broker) && Fewer(s, s')
    ensures SubsInv(s')
  {
  }

  lemma WindHandles(s: State, s': State)
    requires Winds(s.broker, s'.broker) && s'.conn == s.conn
    requires forall t :: t in s'.subs ==> t in s.subs && s'.subs[t] == s.subs[t]
    requires SubsInv(s) && Single(s) && Named(s)
    ensures Single(s') && Named(s')
  {
    forall t, h | t in s'.subs && Live(s', t, h) ensures Live(s, t, h) {}
    forall t | t in s'.subs && Current(s', t) ensures Current(s, t) {}
  }

  lemma RemoveAgrees(env: Env, s: State, t: Token, unsubscribe: bool)
    requires Agreement(s)
    ensures Agreement(Remove(env, s, t, unsubscribe).state)
  {
    var s' := Remove(env, s, t, unsubscribe).state;
    if t in s.subs && s.subs[t].handle.Some? { assert Live(s, t, s.subs[t].handle.value); }
    forall u, h: Handle | u in s'.subs ensures Live(s', u, h) <==> Live(s, u, h) {}
  }

  lemma RemoveWinds(env: Env, s: State, t: Token, unsubscribe: bool)
    ensures var s' := Remove(env, s, t, unsubscribe).state; Winds(s.broker, s'.broker) && Fewer(s, s')
  {
  }

  lemma RemoveKeeps(env: Env, s: State, t: Token, unsubscribe: bool)
    requires Inv(env, s)
    ensures Inv(env, Remove(env, s, t, unsubscribe).state)
  {
    var s' := Remove(env, s, t, unsubscribe).state;
    RemoveWinds(env, s, t, unsubscribe);
    assert ConnInv(s') && s'.conn == s.conn && forall u :: u in s'.subs ==> u in s.subs && s'.subs[u] == s.subs[u];
    hide Remove, ConnInv, LogInv, SubsInv, Winds, Fewer, Single, Named, Agreement;
    WindLog(s.broker, s'.broker, s.nextToken);
    WindSubs(s, s');
    if env.writesBack { RemoveAgrees(env, s, t, unsubscribe); } else { WindHandles(s, s'); }
  }

  lemma PublishKeeps(env: Env, s: State)
    requires Fair(env) && Inv(env, s)
    ensures var r := PublishOnce(env, s); Inv(env, r.state) && SameRequests(s, r.state)
  {
    ReconnectKeeps(env, s);
    var r := Reconnect(env, s);
    if r.ok {
      var s1 := r.state.(broker := SendPublish(env, r.state.broker, r.state.conn.value));
      QuietKeeps(env, r.state, s1);
      CloseKeeps(env, s1);
    }
  }

  /** A publish or a ping changes nothing but the log. */
  lemma QuietKeeps(env: Env, s: State, s': State)
    requires Inv(env, s) && s' == s.(broker := s.broker.(log := s'.broker.log))
    requires |s'.broker.log| == |s.broker.log| + 1 && s'.broker.log[..|s.broker.log|] == s.broker.log
    requires !s'.broker.log[|s.broker.log|].Subscribe?
    ensures Inv(env, s')
  {
    assert forall i :: 0 <= i < |s.broker.log| ==> s'.broker.log[i] == s'.broker.log[..|s.broker.log|][i];
    WindLog(s.broker, s'.broker, s.nextToken);
    WindSubs(s, s');
    if env.writesBack {
      hide LogInv, SubsInv;
      assert forall t, h :: Live(s', t, h) <==> Live(s, t, h);
    } else {
      WindHandles(s, s');
    }
  }

  lemma PingKeeps(env: Env, s: State)
    requires Fair(env) && Inv(env, s)
    ensures Inv(env, PingOnce(env, s)) && SameRequests(s, PingOnce(env, s))
  {
    if s.conn.Some? {
      var s1 := s.(broker := SendPing(env, s.broker, s.conn.value));
      QuietKeeps(env, s, s1);
      CloseKeeps(env, s1);
    }
  }

  lemma TickKeeps(env: Env, s: State)
    requires Fair(env) && Inv(env, s)
    ensures Inv(env, Tick(env, s)) && SameRequests(s, Tick(env, s))
  {
    PingKeeps(env, s);
    ReconnectKeeps(env, PingOnce(env, s));
  }

  ghost predicate Unused(b: Broker, t: Token) {
    forall i :: 0 <= i < |b.log| && b.log[i].Subscribe? ==> b.log[i].token != t
  }

  /** A fresh token's first request, sent and recorded. */
  function Register(env: Env, s: State, t: Token, req: SubReq): State {
    if s.conn.None? then s.(subs := s.subs[t := Rec(req, None)])
    else s.(broker := SendSubscribe(env, s.broker, s.conn.value, t, WireOf(req)),
            subs := s.subs[t := Rec(req, NewHandle(env, s.broker))])
  }

  lemma RegisterLog(env: Env, s: State, t: Token, req: SubReq)
    requires ConnInv(s) && LogInv(s.broker, s.nextToken) && t < s.nextToken && Unused(s.broker, t)
    ensures LogInv(Register(env, s, t, req).broker, s.nextToken)
  {
  }

  lemma RegisterSubs(env: Env, s: State, t: Token, req: SubReq)
    requires SubsInv(s) && LogInv(s.broker, s.nextToken) && t < s.nextToken && Unused(s.broker, t)
    ensures SubsInv(Register(env, s, t, req))
  {
    var s' := Register(env, s, t, req);
    assert forall i :: 0 <= i < |s.broker.log| ==> s'.broker.log[i] == s.broker.log[i];
  }

  lemma RegisterLive(env: Env, s: State, t: Token, req: SubReq, u: Token, h: Handle)
    requires LogInv(s.broker, s.nextToken) && Unused(s.broker, t)
    ensures Live(Register(env, s, t, req), u, h) <==>
      if u == t then s.conn.Some? && env.ok(|s.broker.log|) && h == |s.broker.log| else Live(s, u, h)
  {
  }

  lemma RegisterHandles(env: Env, s: State, t: Token, req: SubReq)
    requires LogInv(s.broker, s.nextToken) && SubsInv(s) && Unused(s.broker, t)
    ensures Agreement(s) ==> Agreement(Register(env, s, t, req))
    ensures Single(s) && Named(s) ==> Single(Register(env, s, t, req)) && Named(Register(env, s, t, req))
  {
    var s' := Register(env, s, t, req);
    forall u, h: Handle ensures Live(s', u, h) <==>
      if u == t then s.conn.Some? && env.ok(|s.broker.log|) && h == |s.broker.log| else Live(s, u, h)
    {
      RegisterLive(env, s, t, req, u, h);
    }
    forall u | u in s.subs && u != t && Current(s', u) ensures Current(s, u) {}
    assert s'.subs[t].handle == if s.conn.Some? then NewHandle(env, s.broker) else None;
    assert forall u :: u in s.subs && u != t ==> s'.subs[u] == s.subs[u];
    hide Live, Register, Current, LogInv, SubsInv;
  }

  lemma RegisterKeeps(env: Env, s: State, t: Token, req: SubReq)
    requires Inv(env, s) && t < s.nextToken && Unused(s.broker, t)
    ensures Inv(env, Register(env, s, t, req))
  {
    assert ConnInv(Register(env, s, t, req)) && Register(env, s, t, req).nextToken == s.nextToken;
    hide Register, ConnInv, LogInv, SubsInv, Single, Named, Agreement, Unused;
    RegisterLog(env, s, t, req);
    RegisterSubs(env, s, t, req);
    RegisterHandles(env, s, t, req);
  }

  /** A pass over the registry sends nothing for an unregistered token. */
  lemma ReconnectUnused(env: Env, s: State, t: Token)
    requires Fair(env) && Inv(env, s) && t !in s.subs && Unused(s.broker, t)
    ensures Unused(Reconnect(env, s).state.broker, t)
  {
    if s.conn.None? && Accepted(env, s.broker) {
      DialPasses(env, s);
    }
  }

  /** QueueSubscribe registers its token with the caller's request whatever the broker answers. */
  lemma SubscribeKeeps(env: Env, s: State, req: SubReq)
    requires Fair(env) && Inv(env, s)
    ensures var s' := QueueSubscribe(env, s, req);
      && Inv(env, s')
      && s'.nextToken == s.nextToken + 1
      && s'.subs.Keys == s.subs.Keys + {s.nextToken}
      && s'.subs[s.nextToken].req == req
      && forall t :: t in s.subs ==> s'.subs[t].req == s.subs[t].req
  {
    hide Inv, Reconnect, Close, QueueSubscribe, Register, Unused;
    var t := s.nextToken;
    var s0 := s.(nextToken := t + 1);
    BumpKeeps(env, s);
    ReconnectKeeps(env, s0);
    ReconnectUnused(env, s0, t);
    var r := Reconnect(env, s0).state;
    var s1 := Register(env, r, t, req);
    RegisterKeeps(env, r, t, req);
    SubscribeUnfolds(env, s, req);
    CloseKeeps(env, s1);
    ReconnectKeeps(env, Close(env, s1));
  }

  lemma SubscribeUnfolds(env: Env, s: State, req: SubReq)
    requires Fair(env)
    ensures var t, r := s.nextToken, Reconnect(env, s.(nextToken := s.nextToken + 1)).state;
      var s1 := Register(env, r, t, req);
      && s1.nextToken == r.nextToken && s1.subs.Keys == r.subs.Keys + {t} && s1.subs[t].req == req
      && (forall u :: u in r.subs && u != t ==> s1.subs[u] == r.subs[u])
      && QueueSubscribe(env, s, req) == if s1.subs[t].handle.None? then Reconnect(env, Close(env, s1)).state else s1
  {
    hide Close;
  }

  lemma BumpKeeps(env: Env, s: State)
    requires Inv(env, s)
    ensures Inv(env, s.(nextToken := s.nextToken + 1)) && Unused(s.broker, s.nextToken) && s.nextToken !in s.subs
  {
    var s' := s.(nextToken := s.nextToken + 1);
    assert forall t, h :: Live(s', t, h) <==> Live(s, t, h);
    assert forall t :: t in s.subs ==> (Current(s', t) <==> Current(s, t));
    hide Live, Current;
  }
}
