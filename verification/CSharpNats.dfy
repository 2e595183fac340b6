/** The C# client: objects updated in place, one API call at a time. */
module CSharpNats {
  import opened Base
  import opened Registry
  import opened RegistryInv
  import opened RegistryTheorems
  import opened RegistryExact
  import opened StreamingLibrary
  import opened Text
  import opened Retry

  class SubRecord {
    const req: SubReq
    var sub: Option<Handle>

    constructor (req: SubReq, sub: Option<Handle>)
      ensures this.req == req && this.sub == sub
    {
      this.req := req;
      this.sub := sub;
    }
  }

  class Nats {
    const lib: Library
    var conn: Option<ConnId>
    var subs: map<Token, SubRecord>
    var nextToken: Token

    ghost function Records(): set<SubRecord>
      reads this`subs
    {
      set t | t in subs :: subs[t]
    }

    /** Every token has a record of its own. */
    ghost predicate Valid()
      reads this, lib
    {
      && Fair(lib.env) && lib.env.writesBack
      && (forall t, u :: t in subs && u in subs && t != u ==> subs[t] != subs[u])
    }

    ghost function Recs(): (m: map<Token, Rec>)
      reads this`subs, Records()
      ensures m.Keys == subs.Keys
    {
      map t | t in subs :: Rec(subs[t].req, subs[t].sub)
    }

    ghost function View(): State
      reads this, lib, Records()
    {
      State(conn, Recs(), nextToken, lib.broker)
    }

    /** A client before Connect. */
    constructor (lib: Library)
      requires Fair(lib.env) && lib.env.writesBack
      ensures Valid() && this.lib == lib
      ensures View() == State(None, map[], 0, lib.broker)
    {
      this.lib := lib;
      conn, subs, nextToken := None, map[], 0;
    }

    /** Reconnects when there is no connection and resubscribes every record. Calls InternalSubscribe,
        which calls Reconnect again; with the connection set that inner call returns at once. */
    method Reconnect() returns (ok: bool)
      requires Valid()
      modifies this`conn, lib`broker, Records()
      ensures Valid() && subs == old(subs)
      ensures Outcome(View(), ok) == Registry.Reconnect(lib.env, old(View()))
      decreases if conn.None? then 3 else 0
    {
      if conn.Some? { return true; }
      var c := lib.CreateConnection();
      if c.None? { return false; }
      conn := c;
      ok := true;
      hide Registry.Reconnect, Recs, Records, Replay1, Replay, Fair;
      ghost var start := View();
      assert start.subs == old(View()).subs;
      Dialed(lib.env, old(View()), start);
      var todo := subs.Keys;
      while todo != {}
        invariant todo <= subs.Keys && subs == old(subs) && conn == c && Valid()
        invariant View().subs.Keys == subs.Keys
        invariant Replay(lib.env, View(), todo) == Replay(lib.env, start, subs.Keys)
        decreases |todo|
      {
        var t := lib.Pick(todo);
        ReplayTurn(lib.env, View(), todo);
        Resubscribe(t);
        todo := todo - {t};
      }
      ReplayTurn(lib.env, View(), todo);
    }

    /** One record of the resubscription loop. */
    method Resubscribe(t: Token)
      requires Valid() && conn.Some? && t in subs
      modifies this`conn, lib`broker, Records()
      ensures Valid() && subs == old(subs) && conn == old(conn)
      ensures View().subs.Keys == subs.Keys && t in old(View()).subs
      ensures View() == Replay1(lib.env, old(View()), t)
      decreases 2
    {
      var item := subs[t];
      var sub := InternalSubscribe(t, item.req);
      item.sub := sub;
      assert Recs() == old(Recs())[t := old(Recs())[t].(handle := sub)];
    }

    method InternalSubscribe(t: Token, req: SubReq) returns (sub: Option<Handle>)
      requires Valid()
      modifies this`conn, lib`broker, Records()
      ensures Valid() && subs == old(subs)
      ensures SubOutcome(View(), sub) == Subscribe1(lib.env, old(View()), t, req)
      decreases if conn.None? then 4 else 1
    {
      var ok := Reconnect();
      if !ok { return None; }
      sub := lib.Subscribe(conn.value, t, WireOf(req));
    }

    method InternalClose()
      requires Valid()
      modifies this`conn, lib`broker, Records()
      ensures Valid() && subs == old(subs)
      ensures View() == Close(lib.env, old(View()))
    {
      hide Recs, Records, CloseSub1, CloseSubs, Fair;
      var todo := subs.Keys;
      ghost var start := View();
      while todo != {}
        invariant todo <= subs.Keys && subs == old(subs) && conn == old(conn) && Valid()
        invariant View().subs.Keys == subs.Keys
        invariant CloseSubs(lib.env, View(), todo) == CloseSubs(lib.env, start, subs.Keys)
        decreases |todo|
      {
        var t := lib.Pick(todo);
        CloseTurn(lib.env, View(), todo);
        CloseRecord(t);
        todo := todo - {t};
      }
      CloseTurn(lib.env, View(), todo);
      DropConnection();
    }

    /** The connection, after its subscriptions. */
    method DropConnection()
      requires Valid()
      modifies this`conn, lib`broker
      ensures Valid() && View() == DropConn(lib.env, old(View()))
    {
      if conn.Some? {
        lib.CloseConnection(conn.value);
        conn := None;
      }
    }

    /** One record of the close loop. */
    method CloseRecord(t: Token)
      requires Valid() && t in subs
      modifies lib`broker, Records()
      ensures Valid() && subs == old(subs) && conn == old(conn)
      ensures View().subs.Keys == subs.Keys && t in old(View()).subs
      ensures View() == CloseSub1(lib.env, old(View()), t)
    {
      var item := subs[t];
      if item.sub.Some? {
        lib.EndSubscription(item.sub.value, false);
        item.sub := None;
        assert Recs() == old(Recs())[t := old(Recs())[t].(handle := None)];
      }
    }

    method QueueSubscribe(req: SubReq) returns (guid: Token)
      requires Valid()
      modifies this`conn, this`subs, this`nextToken, lib`broker, Records()
      ensures Valid() && guid == old(nextToken)
      ensures fresh(Records() - old(Records()))
      ensures View() == Registry.QueueSubscribe(lib.env, old(View()), req)
    {
      hide Registry.Reconnect, Close, Subscribe1, Fair, Recs, Records, Valid;
      var sub;
      guid, sub := Admit(req);
      ghost var after := Records();
      if sub.None? { Restart(); }
      assert Records() == after;
    }

    method NewGuid() returns (guid: Token)
      requires Valid()
      modifies this`nextToken
      ensures Valid() && guid == old(nextToken) && Records() == old(Records())
      ensures View() == old(View()).(nextToken := guid + 1)
    {
      hide Fair;
      guid := nextToken;
      nextToken := nextToken + 1;
    }

    /** Subscribes and keeps a copy, whatever the outcome. */
    method Admit(req: SubReq) returns (guid: Token, sub: Option<Handle>)
      requires Valid()
      modifies this`conn, this`subs, this`nextToken, lib`broker, Records()
      ensures Valid() && guid == old(nextToken)
      ensures fresh(Records() - old(Records()))
      ensures var r := Subscribe1(lib.env, old(View()).(nextToken := guid + 1), guid, req);
              sub == r.handle && View() == r.state.(subs := r.state.subs[guid := Rec(req, sub)])
    {
      hide Subscribe1, Fair, Recs;
      guid := NewGuid();
      ghost var before := Records();
      hide Records, Valid;
      sub := InternalSubscribe(guid, req);
      assert Records() == before;
      Enter(guid, req, sub);
    }

    /** The recovery of a subscribe that failed. */
    method Restart()
      requires Valid()
      modifies this`conn, lib`broker, Records()
      ensures Valid() && subs == old(subs)
      ensures View() == Registry.Reconnect(lib.env, Close(lib.env, old(View()))).state
    {
      hide Registry.Reconnect, Close, Fair, Recs, Records;
      InternalClose();
      var _ := Reconnect();
    }

    /** Keeps a copy of the subscription. */
    method Enter(guid: Token, req: SubReq, sub: Option<Handle>)
      requires Valid()
      modifies this`subs
      ensures Valid()
      ensures fresh(Records() - old(Records()))
      ensures View() == old(View()).(subs := old(View()).subs[guid := Rec(req, sub)])
    {
      var item := new SubRecord(req, sub);
      subs := subs[guid := item];
      assert Recs() == old(Recs())[guid := Rec(req, sub)];
    }

    /** Unscribe and Closesubscribe. A record without a handle makes the call on null fail, which is
        caught like a failure of the library. */
    method EndSubscribe(guid: Token, unsubscribe: bool) returns (found: bool)
      requires Valid()
      modifies this`subs, lib`broker
      ensures Valid() && Records() <= old(Records())
      ensures Outcome(View(), found) == Remove(lib.env, old(View()), guid, unsubscribe)
    {
      ghost var before := View();
      if guid !in subs { return false; }
      var rec := subs[guid];
      subs := subs - {guid};
      assert View().subs == before.subs - {guid};
      if rec.sub.Some? { lib.EndSubscription(rec.sub.value, unsubscribe); }
      found := true;
    }

    method InternalPublish() returns (ok: bool)
      requires Valid()
      modifies this`conn, lib`broker, Records()
      ensures Valid() && subs == old(subs)
      ensures Outcome(View(), ok) == PublishOnce(lib.env, old(View()))
    {
      hide Registry.Reconnect, Close, Recs, Fair;
      ok := Reconnect();
      if !ok { return; }
      ok := lib.Publish(conn.value);
      if !ok { InternalClose(); }
    }

    /** None: the subject is null, empty or white space. Null delays mean the client's own. aborted(i): the
        event is set while attempt i's delay is waited for. */
    method Publish(subject: Option<string>, delays: Option<seq<nat>>, retryDelays: seq<nat>, aborted: nat -> bool)
      returns (r: Option<Result>)
      requires Valid()
      modifies this`conn, lib`broker, Records()
      ensures Valid() && subs == old(subs)
      ensures if subject.None? || AllSpace(subject.value) then r.None? && View() == old(View())
              else r == Some(Retry.Retry(if delays.None? then retryDelays else delays.value,
                                         Outcomes(lib.env, old(View())), aborted)) &&
                   View() == Before(lib.env, old(View()), r.value.attempts)
    {
      if subject.None? || AllSpace(subject.value) { return None; }
      hide PublishOnce, Recs, Records, Fair, Valid;
      var q := PublishWithRetries(if delays.None? then retryDelays else delays.value, aborted);
      r := Some(q);
    }

    lemma IsFair()
      requires Valid()
      ensures Fair(lib.env)
    {
    }

    /** The publish loop: what becomes of each attempt is what internalPublish returns. */
    method PublishWithRetries(delays: seq<nat>, aborted: nat -> bool) returns (r: Result)
      requires Valid()
      modifies this`conn, lib`broker, Records()
      ensures Valid() && subs == old(subs)
      ensures r == Retry.Retry(delays, Outcomes(lib.env, old(View())), aborted)
      ensures View() == Before(lib.env, old(View()), r.attempts)
    {
      hide PublishOnce, Recs, Records, Fair, Valid, View;
      IsFair();
      ghost var start := View();
      ghost var succeeds := Outcomes(lib.env, start);
      var error, attempts, waits := false, 0, [];
      var sum := |delays|;
      for idx := 0 to sum + 1
        invariant Valid() && subs == old(subs) && Records() == old(Records())
        invariant attempts == idx && (idx > 0 ==> error) && View() == Before(lib.env, start, idx)
        invariant idx <= sum && waits == delays[..idx]
        invariant RetryFrom(delays, succeeds, aborted, idx) == Retry.Retry(delays, succeeds, aborted)
      {
        var ok := InternalPublish();
        error := !ok;
        attempts := attempts + 1;
        assert ok == succeeds(idx) && View() == Before(lib.env, start, idx + 1);
        if !error { break; }
        if idx >= sum { assert delays[..idx] == delays; break; }
        waits := waits + [delays[idx]];
        assert delays[..idx + 1] == delays[..idx] + [delays[idx]];
        if aborted(idx) { break; }
      }
      r := Result(!error, attempts, waits);
    }

    method Connect()
      requires Valid() && View() == State(None, map[], 0, Broker(0, {}, map[], []))
      modifies this`conn, lib`broker, Records()
      ensures Valid() && subs == old(subs) && View() == Init(lib.env)
    {
      hide Registry.Reconnect, Fair, Recs;
      var _ := Reconnect();
    }

    /** The body of the reconnect loop. */
    method ReconnectTurn()
      requires Valid()
      modifies this`conn, lib`broker, Records()
      ensures Valid() && subs == old(subs)
      ensures View() == Tick(lib.env, old(View()))
    {
      hide Registry.Reconnect, PingOnce, Recs, Records, Fair;
      assert subs.Keys == {} <==> View().subs == map[];
      if |subs| > 0 {
        PingServer();
        var _ := Reconnect();
      }
    }

    /** Pings the server, closing the connection when that fails. */
    method PingServer()
      requires Valid()
      modifies this`conn, lib`broker, Records()
      ensures Valid() && subs == old(subs)
      ensures View() == PingOnce(lib.env, old(View()))
    {
      hide Close;
      if conn.Some? {
        var ok := lib.Ping(conn.value);
        if !ok { InternalClose(); }
      }
    }
  }

  /** Any sequence of API calls and loop turns on a new client runs the machine of module Registry, and
      leaves every record's handle null or naming its live subscription on the current connection. */
  method Drive(env: Env, ops: seq<Op>) returns (m: Nats)
    requires Fair(env) && env.writesBack
    ensures m.lib.env == env && m.Valid() && m.View() == Run(env, Init(env), ops)
    ensures forall t, h: Handle :: t in m.subs ==> (m.subs[t].sub == Some(h) <==> Live(m.View(), t, h))
  {
    var lib := new Library(env);
    m := new Nats(lib);
    m.Connect();
    hide Init, Fair, QueueSubscribe, PublishOnce, Tick, Close;
    for i := 0 to |ops|
      invariant m.Valid() && m.lib == lib && fresh(m) && fresh(lib) && fresh(m.Records())
      invariant Run(env, m.View(), ops[i..]) == Run(env, Init(env), ops)
    {
      assert ops[i..][1..] == ops[i + 1..];
      match ops[i]
      case Subscribing(req) => var _ := m.QueueSubscribe(req);
      case Removing(t, unsubscribe) => var _ := m.EndSubscribe(t, unsubscribe);
      case Publishing => var _ := m.InternalPublish();
      case Ticking => m.ReconnectTurn();
      case Losing => m.InternalClose();
    }
    assert Reachable(env, m.View());
    forall t, h: Handle | t in m.subs ensures m.subs[t].sub == Some(h) <==> Live(m.View(), t, h) {
      HandleAgreement(env, m.View(), t, h);
    }
  }
}
