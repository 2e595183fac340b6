/**
 The Go client as a state machine over interleaved threads.

 A step is one access to shared state: a read of `m.conn`, a mutex
 acquisition, a call into the streaming library, a write of one field. `m.Mutex` and
 `pubAborts.Mutex` are not re-entrant: an acquisition is enabled only while nobody,
 the acquiring thread included, owns the lock.
 */
module GoThreads {
  import opened Base

  type Tid = nat
  type ConnId = nat
  /** A uuid is unique to the call that draws it; the call's thread number stands for it. */
  type Token = Tid

  /** One round of a publish: the connection it was sent on (None when reconnect failed). */
  datatype Attempt = Attempt(conn: Option<ConnId>, acked: bool)

  /** The call a thread is executing, with the locals that survive its subroutines. */
  datatype Job =
    | Connecting
    | Looping
    | Publishing(delays: nat, tries: seq<Attempt>, signalled: bool)
    | Subscribing(retrying: bool)
    | Removing(token: Token, found: bool)
    | Closing
    | Losing

  /** Program points. R: reconnect, C: internalClose, P: publish, S: QueueSubscribe,
      L: reconnectServer, M: removeSubscription, X: Close. */
  datatype RedialPc =
    | RFast | RLock | RSlow | RDial | RSet(conn: ConnId)
    | RReplay(start: set<Token>, seen: set<Token>)
    | RNested(token: Token, start: set<Token>, seen: set<Token>)
    | RNestedLock(token: Token, start: set<Token>, seen: set<Token>)
    | RNestedSend(token: Token, start: set<Token>, seen: set<Token>)
    | RUnlock(err: bool)
  datatype DropPc = CLock | CConn | CClear | CUnlock
  datatype PublishPc = PStart | PRegister | PSend | PCall(conn: ConnId) | PNext | PWait | PEnd | PDelete
  datatype SubscribePc = SSend | SCall(conn: ConnId) | SRegister(err: bool)
  datatype LoopPc = LWait | LCheck | LLock | LPing | LUnlock(err: bool)
  datatype RemovePc = MLock | MDelete | MUnlock
  datatype ShutdownPc = XStart | XAborts | XCheck | XSend | XNil

  datatype Pc =
    | R(r: RedialPc) | C(c: DropPc) | P(p: PublishPc) | S(s: SubscribePc)
    | L(l: LoopPc) | M(m: RemovePc) | X(x: ShutdownPc) | Done

  datatype Thread = Thread(job: Job, pc: Pc)

  /** What one completed resubscription pass did: the registry when it began and ended, the
      tokens it sent, and the tokens already removed. */
  datatype Replay = Replay(conn: ConnId, start: set<Token>, sent: set<Token>, end: set<Token>, gone: set<Token>)

  datatype Net = Net(
    conn: Option<ConnId>,        // m.conn
    dialed: nat,                 // connections the library has handed out
    installed: nat,              // connections that have been assigned to m.conn
    closed: set<ConnId>)         // connections on which Close was called

  datatype Removal = Removal(token: Token, caller: Tid)

  /** Everything two threads can both touch. */
  datatype Shared = Shared(
    net: Net,
    lock: Option<Tid>,           // owner of m.Mutex
    abortLock: Option<Tid>,      // owner of pubAborts.Mutex
    events: set<Tid>,            // pubAborts.events, one channel per publisher
    chan: bool,                  // m.reconnectAbort != nil
    stopped: bool,               // the background loop has returned
    subs: set<Token>,            // keys of m.subs
    removed: seq<Removal>,       // successful removals, in order
    replays: seq<Replay>,        // completed resubscription passes, in order
    panicked: bool)              // a method was called on a nil connection

  datatype State = State(sh: Shared, threads: map<Tid, Thread>)

  /** The effect of one step of one thread. */
  datatype Effect = Effect(sh: Shared, th: Thread)

  /** Outcomes the environment picks for one step. */
  datatype Choice = Choice(ok: bool, token: Token)

  datatype Call = CallPublish(delays: nat) | CallSubscribe | CallRemove(token: Token) | CallClose | ConnectionLost

  datatype Action =
    | Start(tid: Tid, call: Call)
    | Do(tid: Tid, choice: Choice)
    | SendAbort(tid: Tid, peer: Tid)
    | SendStop(tid: Tid)

  /** Connect has set its fields and is about to call reconnect. Thread 0 then becomes the
      background loop, which Connect starts when reconnect returns. */
  function Init(): State {
    State(Shared(Net(None, 0, 0, {}), None, None, {}, true, false, {}, [], [], false),
          map[0 := Thread(Connecting, R(RFast))])
  }

  /** Where a caller of reconnect continues. */
  function AfterReconnect(job: Job, err: bool): Thread {
    match job
    case Connecting => Thread(Looping, L(LWait))
    case Looping => Thread(Looping, L(LWait))
    case Publishing(_, tries, _) =>
      if err then Thread(job.(tries := tries + [Attempt(None, false)]), P(PNext)) else Thread(job, P(PSend))
    case Subscribing(retrying) =>
      if retrying then Thread(job, Done) else if err then Thread(job, S(SRegister(true))) else Thread(job, S(SSend))
    case _ => Thread(job, Done)
  }

  /** Where a caller of internalClose continues. */
  function AfterClose(job: Job): Thread {
    match job
    case Looping => Thread(job, R(RFast))
    case Publishing(_, _, _) => Thread(job, P(PNext))
    case Subscribing(_) => Thread(job, R(RFast))
    case _ => Thread(job, Done)
  }

  function Go(sh: Shared, job: Job, pc: Pc): Option<Effect> {
    Some(Effect(sh, Thread(job, pc)))
  }

  /** Lock m.Mutex: blocked while it has an owner. */
  function Lock(sh: Shared, t: Tid, job: Job, pc: Pc): Option<Effect> {
    if sh.lock.Some? then None else Go(sh.(lock := Some(t)), job, pc)
  }

  function LockAborts(sh: Shared, t: Tid, job: Job, pc: Pc): Option<Effect> {
    if sh.abortLock.Some? then None else Go(sh.(abortLock := Some(t)), job, pc)
  }

  function Tokens(q: seq<Removal>): set<Token> {
    set x | x in q :: x.token
  }

  /** reconnect, with the internalSubscribe calls it makes under the lock. */
  function StepReconnect(sh: Shared, t: Tid, job: Job, pc: RedialPc, ch: Choice): Option<Effect> {
    var net := sh.net;
    match pc
    case RFast => if net.conn.Some? then Some(Effect(sh, AfterReconnect(job, false))) else Go(sh, job, R(RLock))
    case RLock => Lock(sh, t, job, R(RSlow))
    case RSlow => Go(sh, job, if net.conn.Some? then R(RUnlock(false)) else R(RDial))
    case RDial =>
      if ch.ok then Go(sh.(net := net.(dialed := net.dialed + 1)), job, R(RSet(net.dialed)))
      else Go(sh, job, R(RUnlock(true)))
    case RSet(c) => Go(sh.(net := net.(conn := Some(c), installed := c + 1)), job, R(RReplay(sh.subs, {})))
    case RReplay(start, seen) =>
      // range over the map: an entry added meanwhile may or may not be produced
      if ch.ok then
        if ch.token in sh.subs && ch.token !in seen then Go(sh, job, R(RNested(ch.token, start, seen))) else None
      else if start <= seen then
        var c := if net.conn.Some? then net.conn.value else 0;
        Go(sh.(replays := sh.replays + [Replay(c, start, seen, sh.subs, Tokens(sh.removed))]), job, R(RUnlock(false)))
      else None
    case RNested(k, start, seen) =>
      Go(sh, job, if net.conn.Some? then R(RNestedSend(k, start, seen)) else R(RNestedLock(k, start, seen)))
    case RNestedLock(k, start, seen) =>
      // the caller already owns the lock, so this never succeeds
      Lock(sh, t, job, R(RSlow))
    case RNestedSend(k, start, seen) =>
      if net.conn.Some? then Go(sh, job, R(RReplay(start, seen + {k}))) else Go(sh.(panicked := true), job, R(pc))
    case RUnlock(err) => Some(Effect(sh.(lock := None), AfterReconnect(job, err)))
  }

  /** internalClose. The stored subscription handles it also closes are local to the library. */
  function StepClose(sh: Shared, t: Tid, job: Job, pc: DropPc): Option<Effect> {
    var net := sh.net;
    match pc
    case CLock => Lock(sh, t, job, C(CConn))
    case CConn =>
      if net.conn.Some? then Go(sh.(net := net.(closed := net.closed + {net.conn.value})), job, C(CClear))
      else Go(sh, job, C(CUnlock))
    case CClear => Go(sh.(net := net.(conn := None)), job, C(CUnlock))
    case CUnlock => Some(Effect(sh.(lock := None), AfterClose(job)))
  }

  /** retryWithDelays around internalPublish. */
  function StepPublish(sh: Shared, t: Tid, job: Job, pc: PublishPc, ch: Choice): Option<Effect>
    requires job.Publishing?
  {
    match pc
    case PStart => LockAborts(sh, t, job, P(PRegister))
    case PRegister => Go(sh.(events := sh.events + {t}, abortLock := None), job, R(RFast))
    case PSend =>
      if sh.net.conn.Some? then Go(sh, job, P(PCall(sh.net.conn.value))) else Go(sh.(panicked := true), job, P(pc))
    case PCall(c) => Go(sh, job.(tries := job.tries + [Attempt(Some(c), ch.ok)]), if ch.ok then P(PEnd) else C(CLock))
    case PNext => Go(sh, job, if |job.tries| > job.delays then P(PEnd) else P(PWait))
    case PWait => Go(sh, job, R(RFast))   // the delay elapsed; an abort is a step of Close
    case PEnd => LockAborts(sh, t, job, P(PDelete))
    case PDelete => Go(sh.(events := sh.events - {t}, abortLock := None), job, Done)
  }

  function StepSubscribe(sh: Shared, t: Tid, job: Job, pc: SubscribePc, ch: Choice): Option<Effect>
    requires job.Subscribing?
  {
    match pc
    case SSend =>
      if sh.net.conn.Some? then Go(sh, job, S(SCall(sh.net.conn.value))) else Go(sh.(panicked := true), job, S(pc))
    case SCall(c) => Go(sh, job, S(SRegister(!ch.ok)))
    case SRegister(err) =>
      // the map is written without the lock
      Go(sh.(subs := sh.subs + {t}), job.(retrying := err), if err then C(CLock) else Done)
  }

  function StepLoop(sh: Shared, t: Tid, job: Job, pc: LoopPc, ch: Choice): Option<Effect> {
    match pc
    case LWait => Go(sh, job, L(LCheck))
    case LCheck => Go(sh, job, if sh.subs != {} then L(LLock) else L(LWait))
    case LLock => Lock(sh, t, job, L(LPing))
    case LPing => Go(sh, job, L(LUnlock(sh.net.conn.Some? && !ch.ok)))
    case LUnlock(err) => Go(sh.(lock := None), job, if err then C(CLock) else R(RFast))
  }

  function StepRemove(sh: Shared, t: Tid, job: Job, pc: RemovePc): Option<Effect>
    requires job.Removing?
  {
    match pc
    case MLock => Lock(sh, t, job, M(MDelete))
    case MDelete =>
      if job.token in sh.subs then
        Go(sh.(subs := sh.subs - {job.token}, removed := sh.removed + [Removal(job.token, t)]),
           job.(found := true), M(MUnlock))
      else Go(sh, job, M(MUnlock))
    case MUnlock => Go(sh.(lock := None), job, Done)
  }

  /** Close, except for its two sends. */
  function StepShutdown(sh: Shared, t: Tid, job: Job, pc: ShutdownPc): Option<Effect> {
    match pc
    case XStart => LockAborts(sh, t, job, X(XAborts))
    case XAborts => if sh.events == {} then Go(sh.(abortLock := None), job, X(XCheck)) else None
    case XCheck => Go(sh, job, if sh.chan then X(XSend) else C(CLock))
    case XSend => None
    case XNil => Go(sh.(chan := false), job, C(CLock))
  }

  function StepThread(sh: Shared, t: Tid, th: Thread, ch: Choice): Option<Effect> {
    match (th.job, th.pc)
    case (job, R(r)) => StepReconnect(sh, t, job, r, ch)
    case (job, C(c)) => StepClose(sh, t, job, c)
    case (Publishing(_, _, _), P(p)) => StepPublish(sh, t, th.job, p, ch)
    case (Subscribing(_), S(b)) => StepSubscribe(sh, t, th.job, b, ch)
    case (Looping, L(l)) => StepLoop(sh, t, th.job, l, ch)
    case (Removing(_, _), M(m)) => StepRemove(sh, t, th.job, m)
    case (Closing, X(x)) => StepShutdown(sh, t, th.job, x)
    case _ => None
  }

  /** Close sends on publisher p's channel, which p must be waiting on, and drops the channel. */
  function Abort(s: State, t: Tid, p: Tid): Option<State> {
    if t in s.threads && s.threads[t] == Thread(Closing, X(XAborts)) && p in s.sh.events && p in s.threads &&
       s.threads[p].job.Publishing? && s.threads[p].pc == P(PWait) then
      Some(State(s.sh.(events := s.sh.events - {p}),
                 s.threads[p := Thread(s.threads[p].job.(signalled := true), P(PEnd))]))
    else None
  }

  /** Close sends on m.reconnectAbort, which the loop must be waiting on; the loop returns. */
  function StopLoop(s: State, t: Tid): Option<State> {
    if t in s.threads && s.threads[t] == Thread(Closing, X(XSend)) && 0 in s.threads &&
       s.threads[0] == Thread(Looping, L(LWait)) then
      Some(State(s.sh.(stopped := true), s.threads[0 := Thread(Looping, Done)][t := Thread(Closing, X(XNil))]))
    else None
  }

  function Begin(call: Call): Thread {
    match call
    case CallPublish(n) => Thread(Publishing(n, [], false), P(PStart))
    case CallSubscribe => Thread(Subscribing(false), R(RFast))
    case CallRemove(k) => Thread(Removing(k, false), M(MLock))
    case CallClose => Thread(Closing, X(XStart))
    case ConnectionLost => Thread(Losing, C(CLock))
  }

  function Apply(s: State, t: Tid, e: Effect): State {
    State(e.sh, s.threads[t := e.th])
  }

  /** The state after one action; None when the action is not enabled. A panic ends the process. */
  function Step(s: State, a: Action): Option<State> {
    if s.sh.panicked then None
    else
      match a
      case Start(t, call) => if t in s.threads then None else Some(Apply(s, t, Effect(s.sh, Begin(call))))
      case SendAbort(t, p) => Abort(s, t, p)
      case SendStop(t) => StopLoop(s, t)
      case Do(t, ch) =>
        if t !in s.threads then None
        else
          var e := StepThread(s.sh, t, s.threads[t], ch);
          if e.Some? then Some(Apply(s, t, e.value)) else None
  }

  /** Runs from s; an action that is not enabled is skipped. */
  function Next(s: State, a: Action): State {
    var r := Step(s, a);
    if r.Some? then r.value else s
  }

  function Run(s: State, acts: seq<Action>): State
    decreases |acts|
  {
    if acts == [] then s else Run(Next(s, acts[0]), acts[1..])
  }
}
