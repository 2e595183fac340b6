/**
 The registry of subscriptions and the connection it is replayed on, one API call or one turn of
 the reconnect loop at a time.

 The streaming library is an environment that decides the outcome of every request and the order
 in which a map is enumerated. C# writes the handle of a resubscription back into the registry;
 Go assigns it to the copy made by its range loop, so its registry keeps the first handle.
 */
module Registry {
  import opened Base

  type ConnId = nat
  type Token = nat
  type Handle = nat

  datatype SubOptions = SubOptions(durable: string, maxInflight: int, ackWait: int, manualAcks: bool)

  /** What the caller of QueueSubscribe asked for; a queue may be null in C#. */
  datatype SubReq = SubReq(subject: string, queue: Option<string>, options: SubOptions, cb: nat)

  /** What is sent to the broker. */
  datatype Wire =
    | Plain(subject: string, options: SubOptions, cb: nat)
    | Group(subject: string, queue: string, options: SubOptions, cb: nat)

  function WireOf(r: SubReq): Wire {
    if r.queue.None? || r.queue.value == "" then Plain(r.subject, r.options, r.cb)
    else Group(r.subject, r.queue.value, r.options, r.cb)
  }

  /** Requests to the library with their outcomes. */
  datatype Event =
    | Connect(dialed: Option<ConnId>)
    | Subscribe(conn: ConnId, token: Token, wire: Wire, got: Option<Handle>)
    | Publish(conn: ConnId, ok: bool)
    | Ping(conn: ConnId, ok: bool)
    | EndSub(handle: Handle, unsubscribe: bool, ok: bool)
    | CloseConn(conn: ConnId, ok: bool)

  /** ok(n): the library accepts request number n. pick(n, todo): the element of todo that a map
      enumeration produces next after n requests. writesBack: C#, as opposed to Go. */
  datatype Env = Env(ok: nat -> bool, pick: (nat, set<Token>) -> Token, writesBack: bool)

  ghost predicate Fair(env: Env) {
    forall n: nat, todo: set<Token> | todo != {} :: env.pick(n, todo) in todo
  }

  datatype Active = Active(conn: ConnId, token: Token, wire: Wire)

  /** conns: connections handed out so far; a handle is the number of the request that created it. */
  datatype Broker = Broker(conns: nat, closed: set<ConnId>, active: map<Handle, Active>, log: seq<Event>)

  datatype Rec = Rec(req: SubReq, handle: Option<Handle>)

  datatype State = State(conn: Option<ConnId>, subs: map<Token, Rec>, nextToken: Token, broker: Broker)

  // ---------------------------------------------------------------- requests

  function Accepted(env: Env, b: Broker): bool {
    env.ok(|b.log|)
  }

  function Dial(env: Env, b: Broker): Broker {
    if Accepted(env, b) then b.(conns := b.conns + 1, log := b.log + [Connect(Some(b.conns))])
    else b.(log := b.log + [Connect(None)])
  }

  function NewHandle(env: Env, b: Broker): Option<Handle> {
    if Accepted(env, b) then Some(|b.log|) else None
  }

  function SendSubscribe(env: Env, b: Broker, c: ConnId, t: Token, w: Wire): Broker {
    var b' := b.(log := b.log + [Subscribe(c, t, w, NewHandle(env, b))]);
    if Accepted(env, b) then b'.(active := b.active[|b.log| := Active(c, t, w)]) else b'
  }

  /** Close or Unsubscribe on a handle; a handle that is no longer active is left as it is. */
  function SendEndSub(env: Env, b: Broker, h: Handle, unsubscribe: bool): Broker {
    var ok := Accepted(env, b);
    b.(log := b.log + [EndSub(h, unsubscribe, ok)], active := if ok then b.active - {h} else b.active)
  }

  /** A closed connection delivers nothing; if Close itself fails, the broker may keep its subscriptions. */
  function SendCloseConn(env: Env, b: Broker, c: ConnId): Broker {
    var ok := Accepted(env, b);
    b.(log := b.log + [CloseConn(c, ok)], closed := b.closed + {c},
       active := if ok then map h | h in b.active && b.active[h].conn != c :: b.active[h] else b.active)
  }

  function SendPublish(env: Env, b: Broker, c: ConnId): Broker {
    b.(log := b.log + [Publish(c, Accepted(env, b))])
  }

  function SendPing(env: Env, b: Broker, c: ConnId): Broker {
    b.(log := b.log + [Ping(c, Accepted(env, b))])
  }

  // ---------------------------------------------------------------- reconnect and internalClose

  function Replay1(env: Env, s: State, t: Token): State
    requires s.conn.Some? && t in s.subs
  {
    var h := NewHandle(env, s.broker);
    s.(broker := SendSubscribe(env, s.broker, s.conn.value, t, WireOf(s.subs[t].req)),
       subs := if env.writesBack then s.subs[t := s.subs[t].(handle := h)] else s.subs)
  }

  function Replay(env: Env, s: State, todo: set<Token>): (r: State)
    requires Fair(env) && s.conn.Some? && todo <= s.subs.Keys
    ensures r.conn == s.conn
    decreases |todo|
  {
    if todo == {} then s
    else
      var t := env.pick(|s.broker.log|, todo);
      Replay(env, Replay1(env, s, t), todo - {t})
  }

  datatype Outcome = Outcome(state: State, ok: bool)

  function Reconnect(env: Env, s: State): (r: Outcome)
    requires Fair(env)
    ensures r.ok <==> r.state.conn.Some?
  {
    if s.conn.Some? then Outcome(s, true)
    else
      var b := Dial(env, s.broker);
      if !Accepted(env, s.broker) then Outcome(s.(broker := b), false)
      else
        var s1 := s.(conn := Some(s.broker.conns), broker := b);
        Outcome(Replay(env, s1, s1.subs.Keys), true)
  }

  function CloseSub1(env: Env, s: State, t: Token): State
    requires t in s.subs
  {
    if s.subs[t].handle.None? then s
    else
      s.(broker := SendEndSub(env, s.broker, s.subs[t].handle.value, false),
         subs := if env.writesBack then s.subs[t := s.subs[t].(handle := None)] else s.subs)
  }

  function CloseSubs(env: Env, s: State, todo: set<Token>): State
    requires Fair(env) && todo <= s.subs.Keys
    decreases |todo|
  {
    if todo == {} then s
    else
      var t := env.pick(|s.broker.log|, todo);
      CloseSubs(env, CloseSub1(env, s, t), todo - {t})
  }

  function DropConn(env: Env, s: State): State {
    if s.conn.None? then s
    else s.(conn := None, broker := SendCloseConn(env, s.broker, s.conn.value))
  }

  function Close(env: Env, s: State): State
    requires Fair(env)
  {
    DropConn(env, CloseSubs(env, s, s.subs.Keys))
  }

  // ---------------------------------------------------------------- API calls

  /** internalSubscribe on behalf of token t. */
  datatype SubOutcome = SubOutcome(state: State, handle: Option<Handle>)

  function Subscribe1(env: Env, s: State, t: Token, req: SubReq): SubOutcome
    requires Fair(env)
  {
    var r := Reconnect(env, s);
    if !r.ok then SubOutcome(r.state, None)
    else
      SubOutcome(r.state.(broker := SendSubscribe(env, r.state.broker, r.state.conn.value, t, WireOf(req))),
                 NewHandle(env, r.state.broker))
  }

  function QueueSubscribe(env: Env, s: State, req: SubReq): State
    requires Fair(env)
  {
    var t := s.nextToken;
    var r := Subscribe1(env, s.(nextToken := t + 1), t, req);
    var s1 := r.state.(subs := r.state.subs[t := Rec(req, r.handle)]);
    if r.handle.None? then Reconnect(env, Close(env, s1)).state else s1
  }

  /** Unsubscribe and Closesubscribe; false when the token is not registered. */
  function Remove(env: Env, s: State, t: Token, unsubscribe: bool): Outcome {
    if t !in s.subs then Outcome(s, false)
    else
      var h := s.subs[t].handle;
      var s1 := s.(subs := s.subs - {t});
      Outcome(if h.Some? then s1.(broker := SendEndSub(env, s1.broker, h.value, unsubscribe)) else s1, true)
  }

  /** internalPublish. */
  function PublishOnce(env: Env, s: State): Outcome
    requires Fair(env)
  {
    var r := Reconnect(env, s);
    if !r.ok then r
    else
      var b := r.state.broker;
      var s1 := r.state.(broker := SendPublish(env, b, r.state.conn.value));
      if Accepted(env, b) then Outcome(s1, true) else Outcome(Close(env, s1), false)
  }

  /** The ping of one turn of the reconnect loop, with the close that follows a failed one. */
  function PingOnce(env: Env, s: State): State
    requires Fair(env)
  {
    if s.conn.None? then s
    else
      var s1 := s.(broker := SendPing(env, s.broker, s.conn.value));
      if Accepted(env, s.broker) then s1 else Close(env, s1)
  }

  /** One turn of the reconnect loop. */
  function Tick(env: Env, s: State): State
    requires Fair(env)
  {
    if s.subs == map[] then s else Reconnect(env, PingOnce(env, s)).state
  }

  // ---------------------------------------------------------------- runs

  datatype Op =
    | Subscribing(req: SubReq)
    | Removing(token: Token, unsubscribe: bool)
    | Publishing
    | Ticking
    | Losing       // the connection-lost callback, or Close

  /** Connect on a new client. */
  function Init(env: Env): State
    requires Fair(env)
  {
    Reconnect(env, State(None, map[], 0, Broker(0, {}, map[], []))).state
  }

  function Do(env: Env, s: State, op: Op): State
    requires Fair(env)
  {
    match op
    case Subscribing(req) => QueueSubscribe(env, s, req)
    case Removing(t, unsubscribe) => Remove(env, s, t, unsubscribe).state
    case Publishing => PublishOnce(env, s).state
    case Ticking => Tick(env, s)
    case Losing => Close(env, s)
  }

  function Run(env: Env, s: State, ops: seq<Op>): State
    requires Fair(env)
    decreases |ops|
  {
    if ops == [] then s else Run(env, Do(env, s, ops[0]), ops[1..])
  }

  ghost predicate Reachable(env: Env, s: State)
    requires Fair(env)
  {
    exists ops :: s == Run(env, Init(env), ops)
  }
}
