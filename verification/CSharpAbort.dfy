/**
 The abort event of the C# client under interleaving: publishers, subscribers, the reconnect loop and
 one call of Close. Close sets `_publishAbort`; every reconnect that dials resets it first.

 A step is one access to shared state outside the lock, or an entry to or an exit from a locked
 region. The nested calls that a locked region makes of the same lock are part of it.
 */
module CSharpAbort {
  import opened Base

  type Tid = nat

  /** Publish with its number of delays and the attempts begun; QueueSubscribe, retrying once it failed;
      reconnectServer; Close. */
  datatype Job =
    | Publishing(delays: nat, begun: nat)
    | Subscribing(retrying: bool)
    | Looping
    | Closing

  datatype Pc =
    | Fast        // reconnect: tests _conn
    | Enter       // reconnect: takes the lock, tests _conn again, resets the event
    | Dial        // reconnect: dials and leaves the lock
    | Send        // uses _conn outside the lock
    | Keep        // QueueSubscribe: stores the record
    | Drop        // internalClose
    | Again       // Publish: out of delays, or the event is set, or wait for it
    | Waiting     // Publish: in WaitOne; its step is the end of the delay
    | Idle        // loop: about to wait for the stop event
    | Sleeping    // loop: in WaitOne; its step is the end of the delay
    | Check       // loop: tests _subs.Count
    | Ping        // loop: tests and uses _conn
    | SetAbort | StopLoop | Join   // Close
    | Done

  datatype Thread = Thread(job: Job, pc: Pc)

  /** What two threads can both touch. */
  datatype Shared = Shared(
    abort: bool,             // _publishAbort is set
    stop: bool,              // _reconnectAbort is set
    conn: bool,              // _conn != null
    registry: bool,          // _subs is not empty
    lock: Option<Tid>,       // owner of _token, while it dials
    ended: bool,             // the reconnect thread has ended
    called: Option<Tid>,     // the thread that called Close
    returned: bool)          // Close has returned

  datatype State = State(sh: Shared, threads: map<Tid, Thread>)

  datatype Effect = Effect(sh: Shared, th: Thread)

  datatype Call = CallPublish(delays: nat) | CallSubscribe | CallClose

  datatype Action = Start(tid: Tid, call: Call) | Do(tid: Tid, ok: bool)

  /** Connect has returned, with or without a connection; thread 0 is the loop it started. */
  function Init(conn: bool): State {
    State(Shared(false, false, conn, false, None, false, None, false), map[0 := Thread(Looping, Idle)])
  }

  /** Where a caller of reconnect continues. */
  function AfterReconnect(job: Job, ok: bool): Thread {
    match job
    case Publishing(_, _) => Thread(job, if ok then Send else Again)
    case Subscribing(retrying) =>
      if retrying then Thread(job, Done) else if ok then Thread(job, Send) else Thread(Subscribing(true), Keep)
    case _ => Thread(job, Idle)
  }

  /** Where a caller of internalClose continues. */
  function AfterDrop(job: Job): Thread {
    match job
    case Publishing(_, _) => Thread(job, Again)
    case Closing => Thread(job, Done)
    case _ => Thread(job, Fast)
  }

  /** One step of thread t, except the two that signal other threads. ok is what the library answers to a
      dial, a publish, a subscribe or a ping. */
  function StepThread(sh: Shared, t: Tid, th: Thread, ok: bool): Option<Effect> {
    var Thread(job, pc) := th;
    match pc
    case Fast => Some(Effect(sh, if sh.conn then AfterReconnect(job, true) else Thread(job, Enter)))
    case Enter =>
      if sh.lock.Some? then None
      else if sh.conn then Some(Effect(sh, AfterReconnect(job, true)))
      else Some(Effect(sh.(abort := false, lock := Some(t)), Thread(job, Dial)))
    case Dial => Some(Effect(sh.(lock := None, conn := ok), AfterReconnect(job, ok)))
    case Send =>
      // a null _conn makes the call throw, which is caught like any failure
      if job.Publishing? then Some(Effect(sh, Thread(job, if sh.conn && ok then Done else Drop)))
      else Some(Effect(sh, Thread(Subscribing(!(sh.conn && ok)), Keep)))
    case Keep =>
      Some(Effect(sh.(registry := true), Thread(job, if job == Subscribing(true) then Drop else Done)))
    case Drop =>
      if sh.lock.Some? then None
      else Some(Effect(sh.(conn := false, returned := sh.returned || job.Closing?), AfterDrop(job)))
    case Again =>
      if !job.Publishing? then None
      else Some(Effect(sh, Thread(job, if job.begun > job.delays || sh.abort then Done else Waiting)))
    case Waiting => if job.Publishing? then Some(Effect(sh, Thread(job.(begun := job.begun + 1), Fast))) else None
    case Idle =>
      if sh.stop then Some(Effect(sh.(stop := false, ended := true), Thread(job, Done)))
      else Some(Effect(sh, Thread(job, Sleeping)))
    case Sleeping => Some(Effect(sh, Thread(job, Check)))
    case Check => Some(Effect(sh, Thread(job, if sh.registry then Ping else Idle)))
    case Ping => Some(Effect(sh, Thread(job, if sh.conn && !ok then Drop else Fast)))
    case Join => if sh.ended then Some(Effect(sh, Thread(job, Drop))) else None
    case _ => None
  }

  /** Setting the event releases every publisher that waits for it. */
  function Released(threads: map<Tid, Thread>): map<Tid, Thread> {
    map t | t in threads :: if threads[t].pc == Waiting then threads[t].(pc := Done) else threads[t]
  }

  function Begin(call: Call): Thread {
    match call
    case CallPublish(n) => Thread(Publishing(n, 1), Fast)
    case CallSubscribe => Thread(Subscribing(false), Fast)
    case CallClose => Thread(Closing, SetAbort)
  }

  /** Close is called once. */
  function StartCall(s: State, t: Tid, call: Call): State {
    if t in s.threads || (call.CallClose? && s.sh.called.Some?) then s
    else
      State(if call.CallClose? then s.sh.(called := Some(t)) else s.sh, s.threads[t := Begin(call)])
  }

  /** The stop event ends the loop's wait, or its next one. */
  function Stop(s: State, t: Tid): State
    requires t in s.threads
  {
    var threads := s.threads[t := s.threads[t].(pc := Join)];
    if 0 in threads && threads[0].pc == Sleeping then
      State(s.sh.(ended := true), threads[0 := threads[0].(pc := Done)])
    else State(s.sh.(stop := true), threads)
  }

  function DoStep(s: State, t: Tid, ok: bool): State {
    if t !in s.threads then s
    else if s.threads[t].pc == SetAbort then
      State(s.sh.(abort := true), Released(s.threads)[t := s.threads[t].(pc := StopLoop)])
    else if s.threads[t].pc == StopLoop then Stop(s, t)
    else
      var e := StepThread(s.sh, t, s.threads[t], ok);
      if e.Some? then State(e.value.sh, s.threads[t := e.value.th]) else s
  }

  /** A step that is not enabled is skipped. */
  function Next(s: State, a: Action): State {
    match a
    case Start(t, call) => StartCall(s, t, call)
    case Do(t, ok) => DoStep(s, t, ok)
  }

  function Run(s: State, acts: seq<Action>): State
    decreases |acts|
  {
    if acts == [] then s else Run(Next(s, acts[0]), acts[1..])
  }
}
