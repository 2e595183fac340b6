/** The Java subject as an object; each method is what one thread runs when no other intervenes. Objects keep
    the machine's invariants through any sequence of calls (Drive). */
module JavaSubject {
  import opened Base
  import opened JavaMachine
  import opened JavaTheorems

  /** The client library: hands out connections and remembers which were closed. */
  class Factory {
    var created: nat
    var closed: set<ConnId>

    constructor ()
      ensures created == 0 && closed == {}
    {
      created, closed := 0, {};
    }

    method CreateConnection(up: bool) returns (conn: Option<ConnId>)
      modifies this`created
      ensures conn == (if up then Some(old(created)) else None) && created == old(created) + (if up then 1 else 0)
    {
      if !up { return None; }
      conn := Some(created);
      created := created + 1;
    }

    method CloseConnection(c: ConnId)
      modifies this`closed
      ensures closed == old(closed) + {c}
    {
      closed := closed + {c};
    }
  }

  class Subject {
    const fact: Factory
    var conn: Option<ConnId>
    var subs: Option<ConnId>
    var listening: bool
    var isOpened: bool
    var execs: bool
    var received: seq<string>
    ghost var drained: seq<seq<string>>

    ghost function Connection(): Link
      reads this, fact
    {
      Link(conn, subs, fact.created, fact.closed)
    }

    /** No other thread is between an unlocked test and its lock. */
    ghost function View(): State
      reads this, fact
    {
      State(Connection(), listening, isOpened, execs, 0, 0, 0, received, drained)
    }

    ghost predicate Valid()
      reads this, fact
    {
      Inv(View())
    }

    constructor (fact: Factory, a: Answer)
      requires fact.created == 0 && fact.closed == {}
      modifies fact
      ensures this.fact == fact && Valid()
      ensures View() == Perform(Init(), Opens(a))
    {
      this.fact := fact;
      conn, subs, listening, isOpened, execs := None, None, false, false, false;
      received, drained := [], [];
      new;
      assert View() == Init();
      Open(a);
    }

    method IsConnected(linked: bool) returns (r: bool)
      ensures r <==> conn.Some? && linked
    {
      r := conn.Some? && linked;
    }

    /** False when the library throws. On a subject without a connection, the new one becomes the only
        connection that is not closed. */
    method Connect(up: bool) returns (ok: bool)
      modifies this`conn, fact`created
      ensures ok == up
      ensures Connection() == if up then JavaMachine.Connect(old(Connection())) else old(Connection())
      ensures old(Safe(Connection()) && conn.None?) ==>
        && Safe(Connection())
        && forall c: ConnId :: c < fact.created ==> (c !in fact.closed <==> up && c == old(fact.created))
    {
      var temp := fact.CreateConnection(up);
      if temp.None? { return false; }
      conn := temp;
      ok := true;
    }

    /** Afterwards there is a subscription exactly if there was one or the subject is connected and the
        broker accepts, and it is on the current connection. */
    method Subscribe(a: Answer)
      modifies this`subs
      ensures Connection() == JavaMachine.Subscribe(old(Connection()), a)
      ensures subs.Some? <==> old(subs).Some? || (conn.Some? && a.linked && a.accept)
      ensures old(Safe(Connection())) ==> Safe(Connection()) && (subs.Some? ==> subs == conn)
    {
      if subs.Some? { return; }
      var connected := IsConnected(a.linked);
      if connected && a.accept { subs := conn; }
    }

    method CloseSubs()
      modifies this`subs
      ensures Connection() == JavaMachine.CloseSubs(old(Connection()))
    {
      if subs.None? { return; }
      subs := None;
    }

    method CloseConn()
      modifies this`conn, fact`closed
      ensures Connection() == JavaMachine.CloseConn(old(Connection()))
    {
      if conn.None? { return; }
      fact.CloseConnection(conn.value);
      conn := None;
    }

    method Open(a: Answer)
      requires Valid()
      modifies this`conn, this`subs, this`isOpened, this`execs, fact`created
      ensures Valid() && isOpened
      ensures View() == Perform(old(View()), Opens(a))
    {
      CallKeeps(View(), Opens(a));
      if isOpened { return; }
      var ok := Connect(a.dial);
      if ok && listening { Subscribe(a); }
      execs := true;
      isOpened := true;
    }

    /** Afterwards every connection ever created is closed, and nothing is scheduled that could make
        another. */
    method Close()
      requires Valid()
      modifies this`conn, this`subs, this`isOpened, this`execs, fact`closed
      ensures Valid() && conn.None? && subs.None? && forall c: ConnId :: c < fact.created ==> c in fact.closed
      ensures AtRest(View())
      ensures View() == Perform(old(View()), Closes)
    {
      CallKeeps(View(), Closes);
      if execs { execs := false; }
      CloseSubs();
      CloseConn();
      isOpened := false;
    }

    /** One scheduled tick; linked is what the library answers before the lock is taken. */
    method Guard(linked: bool, a: Answer)
      requires Valid() && execs
      modifies this`conn, this`subs, fact
      ensures Valid()
      ensures View() == Perform(old(View()), Ticks(linked, a))
    {
      CallKeeps(View(), Ticks(linked, a));
      var connected := IsConnected(linked);
      if connected { return; }
      CloseSubs();
      CloseConn();
      var ok := Connect(a.dial);
      if ok && listening { Subscribe(a); }
    }

    method Listen(a: Answer)
      requires Valid()
      modifies this`listening, this`subs
      ensures Valid() && View() == Perform(old(View()), Listens(a))
    {
      CallKeeps(View(), Listens(a));
      hide Inv;
      listening := true;
      Subscribe(a);
    }

    method Forget()
      requires Valid()
      modifies this`listening, this`subs
      ensures Valid() && View() == Perform(old(View()), Forgets)
    {
      CallKeeps(View(), Forgets);
      hide Inv;
      CloseSubs();
      listening := false;
    }

    method OnMessage(payload: string)
      requires Valid()
      modifies this`received
      ensures Valid() && View() == Perform(old(View()), Receives(payload))
    {
      CallKeeps(View(), Receives(payload));
      hide Inv;
      received := received + [payload];
    }

    /** One turn of a listener's interval: takes everything there is. */
    method DrainTo() returns (available: seq<string>)
      requires Valid()
      modifies this`received, this`drained
      ensures available == old(received)
      ensures Valid() && View() == Perform(old(View()), Drains)
    {
      DrainCall(View());
      hide Perform, Inv, WithBatch;
      available := received;
      drained := WithBatch(drained, available);
      received := [];
    }
  }

  // ---------------------------------------------------------------- calls

  /** Ticks happens only while the guard is scheduled. */
  datatype Call =
    | Opens(a: Answer)
    | Closes
    | Ticks(linked: bool, a: Answer)
    | Listens(a: Answer)
    | Forgets
    | Receives(payload: string)
    | Drains

  /** The steps a call takes when no other thread intervenes. */
  function StepsOf(s: State, call: Call): seq<Step> {
    match call
    case Opens(a) => if s.isOpened then [OpenCheck] else [OpenCheck, OpenBody(a)]
    case Closes => [Step.Close]
    case Ticks(linked, a) =>
      if !s.execs then [] else if s.link.conn.Some? && linked then [GuardCheck(true)]
      else [GuardCheck(false), GuardBody(a)]
    case Listens(a) => [ListenFlag, ListenBody(a)]
    case Forgets => [Forget]
    case Receives(p) => [Message(p)]
    case Drains => [Drain]
  }

  function Perform(s: State, call: Call): State {
    var q := StepsOf(s, call);
    if q == [] then s else if |q| == 1 then Next(s, q[0]) else Next(Next(s, q[0]), q[1])
  }

  /** A call made alone is careful, so it keeps the invariant. */
  lemma CallKeeps(s: State, call: Call)
    requires Inv(s) && s.opens == 0 && s.guards == 0
    ensures Inv(Perform(s, call))
    ensures Perform(s, call).opens == 0 && Perform(s, call).guards == 0
  {
    var q := StepsOf(s, call);
    if q != [] {
      var s1 := Next(s, q[0]);
      CarefulStep(s, q[0]);
      if |q| == 2 { CarefulStep(s1, q[1]); }
    }
  }

  /** What each call leaves, when no other thread intervenes. */
  lemma CallMeans(s: State, call: Call)
    requires Inv(s) && s.opens == 0 && s.guards == 0
    ensures var s' := Perform(s, call);
      && (call.Opens? && s.isOpened ==> s' == s)
      && (call.Opens? && !s.isOpened ==> s'.isOpened && Ticking(s') && Reconnected(s, s', call.a))
      && (call.Closes? ==> !s'.isOpened && s'.link.conn.None? && s'.link.subs.None? && AtRest(s'))
      && (call.Ticks? && (!s.execs || (s.link.conn.Some? && call.linked)) ==> s' == s)
      && (call.Ticks? && s.execs && !(s.link.conn.Some? && call.linked) ==> Reconnected(s, s', call.a))
      && (call.Listens? ==>
            && s'.listening && s'.link == s.link.(subs := s'.link.subs)
            && (s'.link.subs.Some? <==> s.link.subs.Some? || (s.link.conn.Some? && call.a.linked && call.a.accept)))
      && (call.Forgets? ==> !s'.listening && s'.link == s.link.(subs := None))
      && (call.Receives? ==> s' == s.(received := s.received + [call.payload]))
      && (call.Drains? ==> s'.received == [] && s'.drained == s.drained + [s.received] && s'.link == s.link)
      && (!call.Listens? && !call.Forgets? ==> s'.listening == s.listening)
      && (!call.Receives? && !call.Drains? ==> s'.received == s.received && s'.drained == s.drained)
  {
    hide WithBatch;
    if call.Drains? { Batch(s.drained, s.received); }
  }

  lemma Batch(batches: seq<seq<string>>, batch: seq<string>)
    ensures WithBatch(batches, batch) == batches + [batch]
  {
  }

  /** A dial on a subject without a connection, or in place of one: a new connection exactly if it succeeds, with
      a subscription exactly if the subject listens and the broker accepts. */
  predicate Reconnected(s: State, s': State, a: Answer) {
    && (s'.link.conn == if a.dial then Some(s.link.created) else None)
    && (s'.link.subs.Some? <==> s.listening && a.dial && a.linked && a.accept)
  }

  lemma DrainCall(s: State)
    requires Inv(s) && s.opens == 0 && s.guards == 0
    ensures var s' := s.(received := [], drained := WithBatch(s.drained, s.received));
      Perform(s, Drains) == s' && Inv(s')
  {
    CallKeeps(s, Drains);
    hide Inv;
  }

  lemma CallRuns(s: State, call: Call)
    ensures CanRun(s, StepsOf(s, call)) && Run(s, StepsOf(s, call)) == Perform(s, call)
  {
    var q := StepsOf(s, call);
    if q != [] {
      var s1 := Next(s, q[0]);
      if |q| == 1 {
        assert q == [q[0]] + [];
        RunCons(s, q[0], []);
      } else {
        RunCons(s1, q[1], []);
        assert q == [q[0]] + [q[1]] && [q[1]] == [q[1]] + [];
        RunCons(s, q[0], [q[1]]);
      }
    }
  }

  /** What the calls receive, in order. */
  function PayloadsOf(calls: seq<Call>): seq<string> {
    if calls == [] then []
    else (if calls[0].Receives? then [calls[0].payload] else []) + PayloadsOf(calls[1..])
  }

  function PerformAll(s: State, calls: seq<Call>): State
    decreases |calls|
  {
    if calls == [] then s else PerformAll(Perform(s, calls[0]), calls[1..])
  }

  /** Calls made one after the other are a run of the interleaved machine. */
  lemma {:induction false} CallsRun(s: State, calls: seq<Call>) returns (steps: seq<Step>)
    requires Inv(s) && s.opens == 0 && s.guards == 0
    ensures CanRun(s, steps) && Run(s, steps) == PerformAll(s, calls)
    ensures Payloads(steps) == PayloadsOf(calls)
    decreases |calls|
  {
    hide Perform, Inv, Next, StepsOf;
    if calls == [] { return []; }
    CallKeeps(s, calls[0]);
    CallRuns(s, calls[0]);
    var rest := CallsRun(Perform(s, calls[0]), calls[1..]);
    RunAppend(s, StepsOf(s, calls[0]), rest);
    steps := StepsOf(s, calls[0]) + rest;
    PayloadsAppend(StepsOf(s, calls[0]), rest);
    CallPayloads(s, calls[0]);
  }

  lemma {:induction false} PayloadsAppend(steps: seq<Step>, more: seq<Step>)
    ensures Payloads(steps + more) == Payloads(steps) + Payloads(more)
    decreases |steps|
  {
    if steps == [] {
      assert steps + more == more;
    } else {
      assert (steps + more)[1..] == steps[1..] + more;
      PayloadsAppend(steps[1..], more);
    }
  }

  lemma CallPayloads(s: State, call: Call)
    ensures Payloads(StepsOf(s, call)) == if call.Receives? then [call.payload] else []
  {
    var q := StepsOf(s, call);
    if |q| == 2 { assert q[1..][1..] == [] && Payloads(q[1..]) == []; }
    if |q| == 1 { assert q[1..] == []; }
  }

  lemma FreshRuns(calls: seq<Call>) returns (steps: seq<Step>)
    ensures CanRun(Init(), steps) && Run(Init(), steps) == PerformAll(Init(), calls)
    ensures Flatten(PerformAll(Init(), calls).drained) + PerformAll(Init(), calls).received == PayloadsOf(calls)
  {
    InitInv();
    steps := CallsRun(Init(), calls);
    MessageConservation(Init(), steps);
    assert Flatten([]) + [] + Payloads(steps) == Payloads(steps);
    hide Run, Flatten;
  }

  /** Makes one call, and returns the batch it drains, if any. */
  method Make(s: Subject, call: Call) returns (batches: seq<seq<string>>)
    requires s.Valid()
    modifies s, s.fact
    ensures s.Valid() && s.View() == Perform(old(s.View()), call)
    ensures s.drained == old(s.drained) + batches
  {
    CallMeans(s.View(), call);
    hide Perform, Inv, Reconnected;
    batches := [];
    match call
    case Opens(answer) => s.Open(answer);
    case Closes => s.Close();
    case Ticks(linked, answer) => if s.execs { s.Guard(linked, answer); }
    case Listens(answer) => s.Listen(answer);
    case Forgets => s.Forget();
    case Receives(payload) => s.OnMessage(payload);
    case Drains =>
      var batch := s.DrainTo();
      batches := [batch];
  }

  /** Any sequence of calls on a new subject is a run of the interleaved machine. It leaves the subject with its
      subscription on the current connection, every other connection closed and no connection while
      it is closed; and what the drains handed out, followed by the queue, is what the calls received. */
  method Drive(a: Answer, calls: seq<Call>) returns (s: Subject, batches: seq<seq<string>>)
    ensures s.View() == PerformAll(Init(), [Opens(a)] + calls)
    ensures exists steps :: CanRun(Init(), steps) && Run(Init(), steps) == s.View()
    ensures Safe(s.Connection()) && (!s.isOpened ==> s.conn.None? && s.subs.None? && AtRest(s.View()))
    ensures batches == s.drained && Flatten(batches) + s.received == PayloadsOf(calls)
  {
    var fact := new Factory();
    s := new Subject(fact, a);
    batches := [];
    assert ([Opens(a)] + calls)[1..] == calls && PayloadsOf([Opens(a)] + calls) == PayloadsOf(calls);
    ghost var steps := FreshRuns([Opens(a)] + calls);
    hide Perform, Inv, Flatten, WithBatch, PayloadsOf, Run, CanRun;
    for i := 0 to |calls|
      invariant s.Valid() && s.fact == fact && fresh(s) && fresh(fact) && batches == s.drained
      invariant PerformAll(s.View(), calls[i..]) == PerformAll(Perform(Init(), Opens(a)), calls)
    {
      assert calls[i..][1..] == calls[i + 1..];
      var drained := Make(s, calls[i]);
      batches := batches + drained;
    }
  }
}
