/**
 The Java subject as interleaved steps. Everything between mu.lock and mu.unlock is one step; the
 unlocked accesses (the test of isOpened in open, the test of isConnected in guard, the
 assignment of listening in listen) are steps of their own. NatsSubject and NatsStreamSubject
 supply the same four operations and are both instances.
 */
module JavaMachine {
  import opened Base

  type ConnId = nat

  /** What the client library answers inside one locked step: to the dial, to the connectivity test
      before subscribing, to the subscribe. */
  datatype Answer = Answer(dial: bool, linked: bool, accept: bool)

  /** subs names the connection on which the subscription was created. */
  datatype Link = Link(conn: Option<ConnId>, subs: Option<ConnId>, created: nat, closed: set<ConnId>)

  datatype State = State(
    link: Link,
    listening: bool,
    isOpened: bool,
    execs: bool,                  // execs != null: its guard is scheduled
    orphans: nat,                 // executors that execs no longer names; nobody shuts them down
    guards: nat,                  // guard ticks that saw no connection and have yet to take the lock
    opens: nat,                   // open calls that saw isOpened false and have yet to take the lock
    received: seq<string>,        // the queue
    drained: seq<seq<string>>)    // the batches drained, in order

  // ---------------------------------------------------------------- the four operations of a subject

  function CloseSubs(l: Link): Link {
    l.(subs := None)
  }

  function CloseConn(l: Link): Link {
    if l.conn.None? then l else l.(conn := None, closed := l.closed + {l.conn.value})
  }

  /** Assigns the new connection over whatever was there. */
  function Connect(l: Link): Link {
    l.(conn := Some(l.created), created := l.created + 1)
  }

  function Subscribe(l: Link, a: Answer): Link {
    if l.subs.Some? then l
    else if l.conn.Some? && a.linked && a.accept then l.(subs := l.conn)
    else l
  }

  /** connect, then subscribe when listening; a failed connect throws past the subscribe. */
  function Attach(l: Link, listening: bool, a: Answer): Link {
    if !a.dial then l else if listening then Subscribe(Connect(l), a) else Connect(l)
  }

  // ---------------------------------------------------------------- steps

  datatype Step =
    | OpenCheck
    | OpenBody(a: Answer)
    | GuardCheck(connected: bool)
    | GuardBody(a: Answer)
    | ListenFlag
    | ListenBody(a: Answer)
    | Forget
    | Close
    | Message(payload: string)
    | Drain

  /** A fresh object; its constructor goes on to call open. */
  function Init(): State {
    State(Link(None, None, 0, {}), false, false, false, 0, 0, 0, [], [])
  }

  /** Some executor is alive. */
  predicate Ticking(s: State) {
    s.execs || s.orphans > 0
  }

  predicate Enabled(s: State, step: Step) {
    match step
    case OpenBody(_) => s.opens > 0
    case GuardCheck(connected) => Ticking(s) && (connected ==> s.link.conn.Some?)
    case GuardBody(_) => s.guards > 0
    case _ => true
  }

  function WithBatch(batches: seq<seq<string>>, batch: seq<string>): seq<seq<string>> {
    batches + [batch]
  }

  function Next(s: State, step: Step): State
    requires Enabled(s, step)
  {
    match step
    case OpenCheck => if s.isOpened then s else s.(opens := s.opens + 1)
    case OpenBody(a) =>
      // execs is assigned over whatever was there
      s.(opens := s.opens - 1, link := Attach(s.link, s.listening, a), execs := true, isOpened := true,
         orphans := if s.execs then s.orphans + 1 else s.orphans)
    case GuardCheck(connected) => if connected then s else s.(guards := s.guards + 1)
    case GuardBody(a) => s.(guards := s.guards - 1, link := Attach(CloseConn(CloseSubs(s.link)), s.listening, a))
    case ListenFlag => s.(listening := true)
    case ListenBody(a) => s.(link := Subscribe(s.link, a))
    case Forget => s.(link := CloseSubs(s.link), listening := false)
    case Close => s.(execs := false, link := CloseConn(CloseSubs(s.link)), isOpened := false)
    case Message(p) => s.(received := s.received + [p])
    case Drain => s.(received := [], drained := WithBatch(s.drained, s.received))
  }

  /** steps can be taken one after the other from s. */
  predicate CanRun(s: State, steps: seq<Step>)
    decreases |steps|
  {
    steps == [] || (Enabled(s, steps[0]) && CanRun(Next(s, steps[0]), steps[1..]))
  }

  function Run(s: State, steps: seq<Step>): State
    requires CanRun(s, steps)
    decreases |steps|
  {
    if steps == [] then s else Run(Next(s, steps[0]), steps[1..])
  }
}
