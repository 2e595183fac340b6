/** The Go client's registry, one API call at a time. Its records are struct values in a map, so what a
    range loop assigns to the record it visits is lost. */
module GoNats {
  import opened Base
  import opened Registry
  import opened RegistryInv
  import opened RegistryTheorems
  import opened RegistryExact
  import opened StreamingLibrary
  import opened Retry

  /** The subscription options a caller may pass; each overwrites one field. */
  datatype SubOption = SetMaxInflight(n: int) | SetAckWait(ms: int) | SetManualAcks | SetDurable(name: string)

  function ApplyOption(o: SubOptions, opt: SubOption): SubOptions {
    match opt
    case SetMaxInflight(n) => o.(maxInflight := n)
    case SetAckWait(ms) => o.(ackWait := ms)
    case SetManualAcks => o.(manualAcks := true)
    case SetDurable(name) => o.(durable := name)
  }

  function ApplyOptions(o: SubOptions, opts: seq<SubOption>): SubOptions
    decreases |opts|
  {
    if opts == [] then o else ApplyOptions(ApplyOption(o, opts[0]), opts[1..])
  }

  datatype Field = Durable | MaxInflight | AckWait | ManualAcks

  function FieldOf(opt: SubOption): Field {
    match opt
    case SetMaxInflight(_) => MaxInflight
    case SetAckWait(_) => AckWait
    case SetManualAcks => ManualAcks
    case SetDurable(_) => Durable
  }

  predicate Agree(o: SubOptions, o': SubOptions, f: Field) {
    match f
    case Durable => o.durable == o'.durable
    case MaxInflight => o.maxInflight == o'.maxInflight
    case AckWait => o.ackWait == o'.ackWait
    case ManualAcks => o.manualAcks == o'.manualAcks
  }

  /** o has what opt sets. */
  predicate Has(o: SubOptions, opt: SubOption) {
    match opt
    case SetMaxInflight(n) => o.maxInflight == n
    case SetAckWait(ms) => o.ackWait == ms
    case SetManualAcks => o.manualAcks
    case SetDurable(name) => o.durable == name
  }

  /** A field has what the last option for it sets, and keeps its value when there is none. */
  lemma {:induction false} LastOptionWins(o: SubOptions, opts: seq<SubOption>, f: Field, last: int)
    requires -1 <= last < |opts| && (last >= 0 ==> FieldOf(opts[last]) == f)
    requires forall i :: last < i < |opts| ==> FieldOf(opts[i]) != f
    ensures if last < 0 then Agree(ApplyOptions(o, opts), o, f) else Has(ApplyOptions(o, opts), opts[last])
    decreases |opts|
  {
    if opts != [] {
      LastOptionWins(ApplyOption(o, opts[0]), opts[1..], f, if last < 0 then -1 else last - 1);
    }
  }

  datatype SubRecord =
    SubRecord(subject: string, queue: string, durable: string, opts: seq<SubOption>, cb: nat, sub: Option<Handle>)

  class Nats {
    const lib: Library
    const maxInflight: int
    const subscribeAckWait: int
    var conn: Option<ConnId>
    var subs: map<Token, SubRecord>
    var nextToken: Token

    ghost predicate Valid()
      reads lib
    {
      Fair(lib.env) && !lib.env.writesBack
    }

    /** What a record asks the broker for: the client's settings, overwritten by the options. */
    ghost function ReqOf(item: SubRecord): SubReq {
      SubReq(item.subject, Some(item.queue),
             ApplyOptions(SubOptions(item.durable, maxInflight, subscribeAckWait, false), item.opts), item.cb)
    }

    /** A record asks for its own subject, queue and callback, and for the client's settings and its own durable
        name where no option of its own sets anything else. */
    lemma ReqMeans(item: SubRecord, f: Field)
      requires forall i :: 0 <= i < |item.opts| ==> FieldOf(item.opts[i]) != f
      ensures var r := ReqOf(item);
        && r.subject == item.subject && r.queue == Some(item.queue) && r.cb == item.cb
        && match f
           case Durable => r.options.durable == item.durable
           case MaxInflight => r.options.maxInflight == maxInflight
           case AckWait => r.options.ackWait == subscribeAckWait
           case ManualAcks => !r.options.manualAcks
    {
      LastOptionWins(SubOptions(item.durable, maxInflight, subscribeAckWait, false), item.opts, f, -1);
    }

    ghost function Recs(): (m: map<Token, Rec>)
      reads this`subs
      ensures m.Keys == subs.Keys
    {
      map t | t in subs :: Rec(ReqOf(subs[t]), subs[t].sub)
    }

    ghost function View(): State
      reads this, lib
    {
      State(conn, Recs(), nextToken, lib.broker)
    }

    constructor (lib: Library, maxInflight: int, subscribeAckWait: int)
      requires Fair(lib.env) && !lib.env.writesBack
      ensures Valid() && this.lib == lib && this.maxInflight == maxInflight && this.subscribeAckWait == subscribeAckWait
      ensures View() == State(None, map[], 0, lib.broker)
    {
      this.lib := lib;
      this.maxInflight := maxInflight;
      this.subscribeAckWait := subscribeAckWait;
      conn, subs, nextToken := None, map[], 0;
    }

    method Reconnect() returns (ok: bool)
      requires Valid()
      modifies this`conn, lib`broker
      ensures Outcome(View(), ok) == Registry.Reconnect(lib.env, old(View()))
      decreases if conn.None? then 3 else 0
    {
      if conn.Some? { return true; }
      var c := lib.CreateConnection();
      if c.None? { return false; }
      conn := c;
      ok := true;
      hide Registry.Reconnect, Replay1, Replay, Fair, Recs;
      ghost var start := View();
      Dialed(lib.env, old(View()), start);
      var todo := subs.Keys;
      while todo != {}
        invariant todo <= subs.Keys && conn == c
        invariant Replay(lib.env, View(), todo) == Replay(lib.env, start, subs.Keys)
        decreases |todo|
      {
        var t := lib.Pick(todo);
        ReplayTurn(lib.env, View(), todo);
        Resubscribe(t);
        todo := todo - {t};
      }
      ReplayTurn(lib.env, View(), todo);
    }

    /** One record of the resubscription loop; the new handle goes to the loop's copy. */
    method Resubscribe(t: Token)
      requires Valid() && conn.Some? && t in subs
      modifies this`conn, lib`broker
      ensures conn == old(conn)
      ensures t in old(View()).subs && View() == Replay1(lib.env, old(View()), t)
      decreases 2
    {
      var item := subs[t];
      var sub := InternalSubscribe(t, item.subject, item.queue, item.durable, item.cb, item.opts);
      item := item.(sub := sub);
    }

    method InternalSubscribe(t: Token, subject: string, queue: string, durable: string, cb: nat, opts: seq<SubOption>)
      returns (sub: Option<Handle>)
      requires Valid()
      modifies this`conn, lib`broker
      ensures SubOutcome(View(), sub) ==
              Subscribe1(lib.env, old(View()), t, ReqOf(SubRecord(subject, queue, durable, opts, cb, None)))
      decreases if conn.None? then 4 else 1
    {
      hide Registry.Reconnect, Recs, Fair;
      var ok := Reconnect();
      if !ok { return None; }
      var o := SetSubOpts(durable, opts);
      if queue == "" {
        sub := lib.Subscribe(conn.value, t, Plain(subject, o, cb));
      } else {
        sub := lib.Subscribe(conn.value, t, Group(subject, queue, o, cb));
      }
    }

    /** The client's settings first, then the caller's options in order. */
    method SetSubOpts(durable: string, opts: seq<SubOption>) returns (o: SubOptions)
      ensures o == ApplyOptions(SubOptions(durable, maxInflight, subscribeAckWait, false), opts)
    {
      o := SubOptions(durable, maxInflight, subscribeAckWait, false);
      ghost var first := o;
      for i := 0 to |opts|
        invariant ApplyOptions(o, opts[i..]) == ApplyOptions(first, opts)
      {
        assert opts[i..][1..] == opts[i + 1..];
        o := ApplyOption(o, opts[i]);
      }
    }

    method InternalClose()
      requires Valid()
      modifies this`conn, lib`broker
      ensures View() == Close(lib.env, old(View()))
    {
      hide Recs, CloseSub1, CloseSubs, Fair;
      var todo := subs.Keys;
      ghost var start := View();
      while todo != {}
        invariant todo <= subs.Keys && conn == old(conn)
        invariant CloseSubs(lib.env, View(), todo) == CloseSubs(lib.env, start, subs.Keys)
        decreases |todo|
      {
        var t := lib.Pick(todo);
        CloseTurn(lib.env, View(), todo);
        CloseRecord(t);
        todo := todo - {t};
      }
      CloseTurn(lib.env, View(), todo);
      if conn.Some? {
        lib.CloseConnection(conn.value);
        conn := None;
      }
    }

    /** One record of the close loop; only the loop's copy loses its handle. */
    method CloseRecord(t: Token)
      requires Valid() && t in subs
      modifies lib`broker
      ensures t in old(View()).subs && View() == CloseSub1(lib.env, old(View()), t)
    {
      var item := subs[t];
      if item.sub.Some? {
        lib.EndSubscription(item.sub.value, false);
        item := item.(sub := None);
      }
    }

    method QueueSubscribe(subject: string, queue: string, durable: string, cb: nat, opts: seq<SubOption>)
      returns (subToken: Token)
      requires Valid()
      modifies this`conn, this`subs, this`nextToken, lib`broker
      ensures subToken == old(nextToken)
      ensures View() ==
              Registry.QueueSubscribe(lib.env, old(View()), ReqOf(SubRecord(subject, queue, durable, opts, cb, None)))
    {
      hide Registry.Reconnect, Close, Subscribe1, Fair;
      subToken := nextToken;
      nextToken := nextToken + 1;
      var sub := InternalSubscribe(subToken, subject, queue, durable, cb, opts);
      ghost var before := Recs();
      subs := subs[subToken := SubRecord(subject, queue, durable, opts, cb, sub)];
      assert Recs() == before[subToken := Rec(ReqOf(SubRecord(subject, queue, durable, opts, cb, None)), sub)];
      hide Recs;
      if sub.None? {
        InternalClose();
        var _ := Reconnect();
      }
    }

    /** Unsubscribe and Closesubscribe. */
    method EndSubscribe(subToken: Token, unsubscribe: bool) returns (found: bool)
      requires Valid()
      modifies this`subs, lib`broker
      ensures Outcome(View(), found) == Remove(lib.env, old(View()), subToken, unsubscribe)
    {
      if subToken !in subs { return false; }
      var item := subs[subToken];
      ghost var before := Recs();
      subs := subs - {subToken};
      assert Recs() == before - {subToken};
      found := true;
      if item.sub.None? { return; }
      lib.EndSubscription(item.sub.value, unsubscribe);
    }

    method InternalPublish() returns (ok: bool)
      requires Valid()
      modifies this`conn, lib`broker
      ensures Outcome(View(), ok) == PublishOnce(lib.env, old(View()))
    {
      hide Registry.Reconnect, Close, Recs;
      ok := Reconnect();
      if !ok { return; }
      ok := lib.Publish(conn.value);
      if !ok { InternalClose(); }
    }

    /** None: the subject is empty. Nil delays mean the client's own. aborted(i): Close signals this publish while
        it waits for delay i. */
    method Publish(subject: string, delays: Option<seq<nat>>, retryDelays: seq<nat>, aborted: nat -> bool)
      returns (r: Option<Result>)
      requires Valid()
      modifies this`conn, lib`broker
      ensures if subject == "" then r.None? && View() == old(View())
              else r == Some(Retry.Retry(if delays.None? then retryDelays else delays.value,
                                         Outcomes(lib.env, old(View())), aborted)) &&
                   View() == Before(lib.env, old(View()), r.value.attempts)
    {
      if subject == "" { return None; }
      hide PublishOnce, Recs, Fair;
      var q := PublishWithRetries(if delays.None? then retryDelays else delays.value, aborted);
      r := Some(q);
    }

    /** retryWithDelays around internalPublish. */
    method PublishWithRetries(delays: seq<nat>, aborted: nat -> bool) returns (r: Result)
      requires Valid()
      modifies this`conn, lib`broker
      ensures r == Retry.Retry(delays, Outcomes(lib.env, old(View())), aborted)
      ensures View() == Before(lib.env, old(View()), r.attempts)
    {
      hide PublishOnce, Recs, Fair, View;
      ghost var start := View();
      ghost var succeeds := Outcomes(lib.env, start);
      ghost var whole := Retry.Retry(delays, succeeds, aborted);
      var failed, attempts, waits := false, 0, [];
      var isAborted := false;
      var idx, sum := 0, |delays|;
      while !isAborted && idx <= sum
        invariant 0 <= idx <= sum && View() == Before(lib.env, start, attempts)
        invariant if isAborted then failed && Result(false, attempts, waits) == whole
                  else attempts == idx && waits == delays[..idx] && RetryFrom(delays, succeeds, aborted, idx) == whole
        decreases sum - idx
      {
        var ok := InternalPublish();
        attempts := attempts + 1;
        failed := !ok;
        assert ok == succeeds(idx) && View() == Before(lib.env, start, attempts);
        if !failed { break; }
        if idx >= sum { assert delays[..idx] == delays; break; }
        waits := waits + [delays[idx]];
        assert delays[..idx + 1] == delays[..idx] + [delays[idx]];
        if aborted(idx) { isAborted := true; }
        idx := idx + 1;
      }
      r := Result(!failed, attempts, waits);
    }

    /** The body of the reconnect loop. */
    method ReconnectTurn()
      requires Valid()
      modifies this`conn, lib`broker
      ensures View() == Tick(lib.env, old(View()))
    {
      hide Registry.Reconnect, Close, Recs, Fair;
      assert subs.Keys == {} <==> View().subs == map[];
      if |subs| > 0 {
        var ok := true;
        if conn.Some? { ok := lib.Ping(conn.value); }
        if !ok { InternalClose(); }
        var _ := Reconnect();
      }
    }
  }

  datatype Call =
    | Subscribes(subject: string, queue: string, durable: string, cb: nat, opts: seq<SubOption>)
    | Removes(subToken: Token, unsubscribe: bool)
    | Publishes
    | Ticks
    | Loses

  /** The machine's operation for a call on a client with these settings. */
  function OpOf(maxInflight: int, ackWait: int, call: Call): Op {
    match call
    case Subscribes(subject, queue, durable, cb, opts) =>
      var options := ApplyOptions(SubOptions(durable, maxInflight, ackWait, false), opts);
      Subscribing(SubReq(subject, Some(queue), options, cb))
    case Removes(t, unsubscribe) => Removing(t, unsubscribe)
    case Publishes => Publishing
    case Ticks => Ticking
    case Loses => Losing
  }

  function OpsOf(maxInflight: int, ackWait: int, calls: seq<Call>): (ops: seq<Op>)
    ensures |ops| == |calls| && forall i :: 0 <= i < |ops| ==> ops[i] == OpOf(maxInflight, ackWait, calls[i])
  {
    if calls == [] then []
    else [OpOf(maxInflight, ackWait, calls[0])] + OpsOf(maxInflight, ackWait, calls[1..])
  }

  /** Any sequence of API calls and loop turns on a new client runs the machine of module Registry. A
      registered token then has at most one live subscription, which carries what its record asks
      for; the record's handle names it exactly if it was obtained on the current connection. */
  method Drive(env: Env, maxInflight: int, ackWait: int, calls: seq<Call>) returns (m: Nats)
    requires Fair(env) && !env.writesBack
    ensures m.lib.env == env && m.View() == Run(env, Init(env), OpsOf(maxInflight, ackWait, calls))
    ensures forall t, h :: t in m.subs && Live(m.View(), t, h) ==>
      && Carries(m.lib.broker.active[h].wire, m.ReqOf(m.subs[t]))
      && (m.subs[t].sub == Some(h) <==> Current(m.View(), t))
      && forall h' :: Live(m.View(), t, h') ==> h' == h
  {
    var lib := new Library(env);
    m := new Nats(lib, maxInflight, ackWait);
    hide Init, Fair, QueueSubscribe, PublishOnce, Tick, Close, Registry.Reconnect, ApplyOptions;
    assert Registry.Reconnect(env, m.View()).state == Init(env) by { InitMeans(env); }
    var _ := m.Reconnect();
    ghost var ops := OpsOf(maxInflight, ackWait, calls);
    for i := 0 to |calls|
      invariant m.Valid() && m.lib == lib && fresh(m) && fresh(lib)
      invariant m.maxInflight == maxInflight && m.subscribeAckWait == ackWait
      invariant Run(env, m.View(), ops[i..]) == Run(env, Init(env), ops)
    {
      assert ops[i..][1..] == ops[i + 1..] && ops[i..][0] == OpOf(maxInflight, ackWait, calls[i]);
      match calls[i]
      case Subscribes(subject, queue, durable, cb, opts) =>
        var _ := m.QueueSubscribe(subject, queue, durable, cb, opts);
      case Removes(t, unsubscribe) => var _ := m.EndSubscribe(t, unsubscribe);
      case Publishes => var _ := m.InternalPublish();
      case Ticks => m.ReconnectTurn();
      case Loses => m.InternalClose();
    }
    assert Reachable(env, m.View());
    forall t, h | t in m.subs && Live(m.View(), t, h)
      ensures Carries(m.lib.broker.active[h].wire, m.ReqOf(m.subs[t]))
      ensures m.subs[t].sub == Some(h) <==> Current(m.View(), t)
      ensures forall h' :: Live(m.View(), t, h') ==> h' == h
    {
      CurrentExactly(env, m.View(), t, h);
    }
  }

  lemma InitMeans(env: Env)
    requires Fair(env)
    ensures Init(env) == Registry.Reconnect(env, State(None, map[], 0, Broker(0, {}, map[], []))).state
  {
  }

  /** The stored handle names the live subscription exactly if it was obtained on the current connection. */
  lemma CurrentExactly(env: Env, s: State, t: Token, h: Handle)
    requires Fair(env) && Reachable(env, s) && !env.writesBack && t in s.subs && Live(s, t, h)
    ensures Carries(s.broker.active[h].wire, s.subs[t].req)
    ensures s.subs[t].handle == Some(h) <==> Current(s, t)
    ensures forall h' :: Live(s, t, h') ==> h' == h
  {
    ReachableInv(env, s);
    hide Reachable, Fair;
  }

  /** Subscribe, lose the connection, reconnect, unsubscribe: against a broker that accepts every
      request, the token is gone from the registry and its subscription is still live. */
  method StaleHandle(env: Env) returns (m: Nats, subToken: Token, ghost h: Handle)
    requires Fair(env) && !env.writesBack && forall n: nat :: env.ok(n)
    ensures m.lib.env == env && subToken !in m.subs && Live(m.View(), subToken, h)
  {
    var lib := new Library(env);
    m := new Nats(lib, 1, 60000);
    hide Fair, Registry.QueueSubscribe, Tick, Close, Registry.Reconnect, Live, Current, Remove;
    Started(env);
    var _ := m.Reconnect();
    ghost var s0 := m.View();
    subToken := m.QueueSubscribe("foo", "bar", "durable", 0, []);
    ghost var req := m.ReqOf(SubRecord("foo", "bar", "durable", [], 0, None));
    ghost var s1 := m.View();
    m.InternalClose();
    m.ReconnectTurn();
    ghost var s2 := m.View();
    assert s2 == Tick(env, Close(env, QueueSubscribe(env, s0, req)));
    h := Outlives(env, s0, req);
    var _ := m.EndSubscribe(subToken, true);
  }

  lemma Started(env: Env)
    requires Fair(env)
    ensures Reachable(env, Init(env))
  {
    assert Run(env, Init(env), []) == Init(env);
  }

  lemma Outlives(env: Env, s: State, req: SubReq) returns (h: Handle)
    requires Fair(env) && !env.writesBack && (forall n: nat :: env.ok(n)) && s == Init(env)
    ensures var s2 := Tick(env, Close(env, QueueSubscribe(env, s, req)));
      && s.nextToken in s2.subs
      && var r := Remove(env, s2, s.nextToken, true);
         r.ok && s.nextToken !in r.state.subs && Live(r.state, s.nextToken, h)
  {
    hide Fair, Registry.QueueSubscribe, Tick, Close, Registry.Reconnect, Live, Current, Init, Reachable;
    var t := s.nextToken;
    Started(env);
    ReachableInv(env, s);
    SubscribeKeeps(env, s, req);
    var s1 := QueueSubscribe(env, s, req);
    var sc := Close(env, s1);
    CloseKeeps(env, s1);
    Extends(env, s, Subscribing(req));
    Extends(env, s1, Losing);
    assert t in sc.subs;
    SelfHealingTick(env, sc);
    var s2 := Tick(env, sc);
    assert s2 == Reconnect(env, sc).state by { TickWithoutConnection(env, sc); }
    GoLosesTrack(env, sc, t);
    Extends(env, sc, Ticking);
    h :| Live(s2, t, h);
    GoRemovalEndsExactly(env, s2, t, true, h);
  }

  lemma Extends(env: Env, s: State, op: Op)
    requires Fair(env) && Reachable(env, s)
    ensures Reachable(env, Do(env, s, op))
  {
    hide Init, Do, Fair;
    var ops :| s == Run(env, Init(env), ops);
    RunSnoc(env, Init(env), ops, op);
  }

  lemma {:induction false} RunSnoc(env: Env, s: State, ops: seq<Op>, op: Op)
    requires Fair(env)
    ensures Run(env, s, ops + [op]) == Do(env, Run(env, s, ops), op)
    decreases |ops|
  {
    hide Do, Fair;
    if ops == [] {
      assert Run(env, Do(env, s, op), []) == Do(env, s, op);
    } else {
      assert (ops + [op])[1..] == ops[1..] + [op];
      RunSnoc(env, Do(env, s, ops[0]), ops[1..], op);
    }
  }

  lemma TickWithoutConnection(env: Env, s: State)
    requires Fair(env) && s.conn.None? && s.subs != map[]
    ensures Tick(env, s) == Reconnect(env, s).state
  {
    hide Reconnect;
  }
}
