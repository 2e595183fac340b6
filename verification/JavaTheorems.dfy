/** What the Java subject guarantees over interleavings of its locked steps. */
module JavaTheorems {
  import opened Base
  import opened JavaMachine

  // ---------------------------------------------------------------- connections

  /** A subscription was created on the current connection, and every connection ever created is the
      current one or closed. */
  ghost predicate Safe(l: Link) {
    (l.subs.Some? ==> l.conn == l.subs) && OnlyOpen(l.created, l.closed, l.conn)
  }

  /** The one step that can lose a connection: open assigns a new connection over an existing one. */
  predicate Overwrites(s: State, step: Step) {
    step.OpenBody? && step.a.dial && s.link.conn.Some?
  }

  /** Every other step keeps the connections in order, and that step never does. */
  lemma SafeExactly(s: State, step: Step)
    requires Safe(s.link) && Enabled(s, step)
    ensures Safe(Next(s, step).link) <==> !Overwrites(s, step)
  {
    if Overwrites(s, step) { OverwriteLoses(s, step); }
  }

  /** One open at a time, and no guard tick in flight across a close. */
  predicate Careful(s: State, step: Step) {
    (step.OpenCheck? ==> s.opens == 0) && (step.Close? ==> s.guards == 0)
  }

  predicate CarefulRun(s: State, steps: seq<Step>)
    requires CanRun(s, steps)
    decreases |steps|
  {
    steps == [] || (Careful(s, steps[0]) && CarefulRun(Next(s, steps[0]), steps[1..]))
  }

  /** What careful runs keep: while the subject is not open nothing is connected and no guard runs. */
  ghost predicate Inv(s: State) {
    && Safe(s.link)
    && s.execs == s.isOpened && s.orphans == 0
    && s.opens <= 1
    && (s.opens == 1 ==> !s.isOpened)
    && (!s.isOpened ==> s.link.conn.None? && s.link.subs.None? && s.guards == 0)
  }

  lemma CarefulStep(s: State, step: Step)
    requires Inv(s) && Enabled(s, step) && Careful(s, step)
    ensures Inv(Next(s, step)) && !Overwrites(s, step)
  {
  }

  /** In every run in which opens do not overlap and no guard tick straddles a close, through any number
      of closes and re-opens, every state is safe; and a closed subject holds no connection. */
  lemma {:induction false} BindingInvariant(s: State, steps: seq<Step>)
    requires Inv(s) && CanRun(s, steps) && CarefulRun(s, steps)
    ensures Inv(Run(s, steps))
    decreases |steps|
  {
    if steps != [] {
      CarefulStep(s, steps[0]);
      BindingInvariant(Next(s, steps[0]), steps[1..]);
    }
  }

  lemma InitInv()
    ensures Inv(Init())
  {
  }

  /** A connection that is neither current nor closed. */
  ghost predicate Lost(l: Link) {
    exists c: ConnId :: c < l.created && l.conn != Some(c) && c !in l.closed
  }

  lemma LostStaysLost(s: State, step: Step)
    requires Lost(s.link) && Enabled(s, step)
    ensures Lost(Next(s, step).link)
  {
    var c: ConnId :| c < s.link.created && s.link.conn != Some(c) && c !in s.link.closed;
    var l := Next(s, step).link;
    assert c < l.created && l.conn != Some(c) && c !in l.closed;
  }

  predicate SomeOverwrites(s: State, steps: seq<Step>)
    requires CanRun(s, steps)
    decreases |steps|
  {
    steps != [] && (Overwrites(s, steps[0]) || SomeOverwrites(Next(s, steps[0]), steps[1..]))
  }

  lemma {:induction false} LostRun(s: State, steps: seq<Step>)
    requires Lost(s.link) && CanRun(s, steps)
    ensures Lost(Run(s, steps).link)
    decreases |steps|
  {
    hide Next, Lost, Enabled;
    if steps != [] {
      LostStaysLost(s, steps[0]);
      LostRun(Next(s, steps[0]), steps[1..]);
    }
  }

  /** Over whole runs, of any threads and any number of opens: the binding holds at the end exactly when no
      open dialed over an existing connection. A connection lost that way is lost for good. */
  lemma {:induction false} SafeRunExactly(s: State, steps: seq<Step>)
    requires Safe(s.link) && CanRun(s, steps)
    ensures Safe(Run(s, steps).link) <==> !SomeOverwrites(s, steps)
    ensures Lost(Run(s, steps).link) <==> SomeOverwrites(s, steps)
    decreases |steps|
  {
    hide Next, Enabled;
    if steps != [] {
      var s1 := Next(s, steps[0]);
      SafeExactly(s, steps[0]);
      if Overwrites(s, steps[0]) {
        OverwriteLoses(s, steps[0]);
        LostRun(s1, steps[1..]);
      } else {
        SafeRunExactly(s1, steps[1..]);
      }
    }
  }

  lemma OverwriteLoses(s: State, step: Step)
    requires Safe(s.link) && Enabled(s, step) && Overwrites(s, step)
    ensures Lost(Next(s, step).link)
  {
    var c := s.link.conn.value;
    assert c < Next(s, step).link.created && c !in Next(s, step).link.closed;
  }

  /** Without a re-open, no care is needed: after the first open, every interleaving is safe. */
  lemma {:induction false} OneOpenIsSafe(s: State, steps: seq<Step>)
    requires Safe(s.link) && s.opens == 0 && CanRun(s, steps)
    requires forall i :: 0 <= i < |steps| ==> !steps[i].OpenCheck?
    ensures Safe(Run(s, steps).link)
    decreases |steps|
  {
    if steps != [] {
      SafeExactly(s, steps[0]);
      OneOpenIsSafe(Next(s, steps[0]), steps[1..]);
    }
  }

  /** s is n steps away from a fresh object. */
  ghost predicate Reached(n: nat, s: State) {
    if n == 0 then s == Init()
    else exists p, step :: Reached(n - 1, p) && Enabled(p, step) && s == Next(p, step)
  }

  lemma RunCons(s: State, step: Step, rest: seq<Step>)
    requires Enabled(s, step) && CanRun(Next(s, step), rest)
    ensures CanRun(s, [step] + rest) && Run(s, [step] + rest) == Run(Next(s, step), rest)
  {
    assert ([step] + rest)[1..] == rest;
  }

  lemma {:induction false} RunAppend(s: State, steps: seq<Step>, more: seq<Step>)
    requires CanRun(s, steps) && CanRun(Run(s, steps), more)
    ensures CanRun(s, steps + more) && Run(s, steps + more) == Run(Run(s, steps), more)
    decreases |steps|
  {
    hide Next;
    if steps == [] {
      assert steps + more == more;
    } else {
      assert (steps + more)[1..] == steps[1..] + more;
      RunAppend(Next(s, steps[0]), steps[1..], more);
    }
  }

  /** Such a state ends a run. */
  lemma {:induction false} ReachedRuns(n: nat, s: State) returns (steps: seq<Step>)
    requires Reached(n, s)
    ensures CanRun(Init(), steps) && Run(Init(), steps) == s
  {
    hide Next, Init;
    if n == 0 {
      steps := [];
    } else {
      var p, step :| Reached(n - 1, p) && Enabled(p, step) && s == Next(p, step);
      var before := ReachedRuns(n - 1, p);
      RunCons(p, step, []);
      RunAppend(Init(), before, [step] + []);
      steps := before + ([step] + []);
    }
  }

  lemma Then(n: nat, s: State, step: Step, link: Link) returns (s': State)
    requires Reached(n, s) && Enabled(s, step) && Next(s, step).link == link
    ensures Reached(n + 1, s') && s' == Next(s, step) && s'.link == link
  {
    s' := Next(s, step);
  }

  /** A guard tick that straddles a close reconnects a closed subject, and the next open then loses
      that connection: there is a run after which it is neither current nor closed. */
  lemma StraddlingGuardLeaks() returns (steps: seq<Step>, c: ConnId)
    ensures CanRun(Init(), steps)
    ensures var l := Run(Init(), steps).link; c < l.created && l.conn != Some(c) && c !in l.closed
  {
    var s := Straddled();
    steps := ReachedRuns(7, s);
    c := 1;
  }

  lemma Straddled() returns (s: State)
    ensures Reached(7, s) && s.link == Link(Some(2), None, 3, {0})
  {
    hide Reached;
    var y := Answer(true, true, true);
    s := Started();
    s := Then(0, s, OpenCheck, Link(None, None, 0, {}));
    s := Then(1, s, OpenBody(y), Link(Some(0), None, 1, {}));
    s := Then(2, s, GuardCheck(false), Link(Some(0), None, 1, {}));
    s := Then(3, s, Close, Link(None, None, 1, {0}));
    s := Then(4, s, GuardBody(y), Link(Some(1), None, 2, {0}));
    s := Then(5, s, OpenCheck, Link(Some(1), None, 2, {0}));
    s := Then(6, s, OpenBody(y), Link(Some(2), None, 3, {0}));
  }

  lemma Started() returns (s: State)
    ensures Reached(0, s) && s == Init()
  {
    s := Init();
  }

  // ---------------------------------------------------------------- guard and close

  /** A guard tick that takes the lock replaces the connection, in whatever state it finds the subject. It
      ends on a connection newer than all before exactly when the dial succeeds, subscribed to it
      exactly when the subject is listening and the broker accepts, and otherwise with nothing. If no
      connection had been lost, all older ones are closed. */
  lemma GuardRecovers(s: State, a: Answer)
    requires Enabled(s, GuardBody(a))
    ensures var l := Next(s, GuardBody(a)).link;
      && (l.conn == if a.dial then Some(s.link.created) else None)
      && (l.subs.Some? <==> s.listening && a.dial && a.linked && a.accept)
      && (l.subs.Some? ==> l.subs == l.conn)
      && (Safe(s.link) ==> Safe(l) && forall c: ConnId :: c < s.link.created ==> c in l.closed)
  {
    if Safe(s.link) { SafeExactly(s, GuardBody(a)); }
  }

  /** What an open that takes the lock leaves, on a subject that has no connection. */
  lemma OpenConnects(s: State, a: Answer)
    requires Enabled(s, OpenBody(a)) && s.link.conn.None? && s.link.subs.None?
    ensures var s' := Next(s, OpenBody(a));
      && (s'.link.conn == if a.dial then Some(s.link.created) else None)
      && (s'.link.subs.Some? <==> s.listening && a.dial && a.linked && a.accept)
      && s'.isOpened && Ticking(s') && s'.listening == s.listening
  {
  }

  /** What listen leaves: the subject subscribes on the connection it has. */
  lemma ListenSubscribes(s: State, a: Answer)
    ensures var s1 := Next(s, ListenFlag);
      var s' := Next(s1, ListenBody(a));
      && s'.listening && s'.link.conn == s.link.conn && s'.link.closed == s.link.closed
      && (s'.link.subs.Some? <==> s.link.subs.Some? || (s.link.conn.Some? && a.linked && a.accept))
      && (Safe(s.link) ==> Safe(s'.link))
  {
  }

  /** What forget leaves: the connection without a subscription, and no guard subscribes it again. */
  lemma ForgetEnds(s: State)
    ensures var s' := Next(s, Forget);
      && !s'.listening && s'.link.subs.None? && s'.link.conn == s.link.conn && s'.link.closed == s.link.closed
      && forall a :: s'.guards > 0 ==> Next(s', GuardBody(a)).link.subs.None?
  {
  }

  /** What close leaves: neither connection nor subscription, and the executor shut down. */
  lemma CloseEnds(s: State)
    ensures var s' := Next(s, Step.Close);
      && s'.link.conn.None? && s'.link.subs.None? && !s'.isOpened && s'.listening == s.listening
      && (s.link.conn.Some? ==> s.link.conn.value in s'.link.closed)
      && (Ticking(s') <==> s.orphans > 0)
  {
  }

  predicate NoOpens(steps: seq<Step>) {
    forall i :: 0 <= i < |steps| ==> !steps[i].OpenCheck?
  }

  /** No executor is alive, no guard tick is past its test and no open is past its own. */
  predicate AtRest(s: State) {
    !Ticking(s) && s.guards == 0 && s.opens == 0
  }

  lemma {:induction false} RestLasts(s: State, steps: seq<Step>)
    requires s.link.conn.None? && s.link.subs.None? && AtRest(s) && CanRun(s, steps) && NoOpens(steps)
    ensures Run(s, steps).link == s.link
    decreases |steps|
  {
    if steps != [] {
      RestLasts(Next(s, steps[0]), steps[1..]);
    }
  }

  /** What is still in the way can reconnect a subject that nobody opens. */
  lemma Reconnects(s: State) returns (steps: seq<Step>)
    requires !AtRest(s)
    ensures CanRun(s, steps) && NoOpens(steps) && Run(s, steps).link.conn.Some?
  {
    var y := Answer(true, true, true);
    var last := if s.opens > 0 then OpenBody(y) else GuardBody(y);
    var s1 := if s.opens > 0 || s.guards > 0 then s else Next(s, GuardCheck(false));
    RunCons(s1, last, []);
    steps := [last];
    if s1 != s {
      RunCons(s, GuardCheck(false), steps);
      steps := [GuardCheck(false)] + steps;
    }
  }

  /** A disconnected subject stays disconnected in every run without an open exactly when no executor is
      alive and nothing is in flight. */
  lemma ClosedStaysClosed(s: State)
    requires s.link.conn.None? && s.link.subs.None?
    ensures AtRest(s) <==> forall steps :: CanRun(s, steps) && NoOpens(steps) ==> Run(s, steps).link == s.link
  {
    if AtRest(s) {
      forall steps | CanRun(s, steps) && NoOpens(steps) ensures Run(s, steps).link == s.link { RestLasts(s, steps); }
    } else {
      var steps := Reconnects(s);
    }
  }

  // ---------------------------------------------------------------- executors that outlive close

  /** Some open takes the lock and finds the subject already opened by another. */
  predicate DoubleOpen(s: State, steps: seq<Step>)
    requires CanRun(s, steps)
    decreases |steps|
  {
    steps != [] && ((steps[0].OpenBody? && s.isOpened) || DoubleOpen(Next(s, steps[0]), steps[1..]))
  }

  /** Close shuts down the executor that execs names. One that it does not name is left behind exactly by
      an open that finds the subject opened; nothing ever shuts that one down. */
  lemma {:induction false} OrphansExactly(s: State, steps: seq<Step>)
    requires s.execs == s.isOpened && CanRun(s, steps)
    ensures Run(s, steps).orphans >= s.orphans
    ensures Run(s, steps).orphans > s.orphans <==> DoubleOpen(s, steps)
    ensures Run(s, steps).execs == Run(s, steps).isOpened
    decreases |steps|
  {
    if steps != [] {
      OrphansExactly(Next(s, steps[0]), steps[1..]);
    }
  }

  /** In a run without a double open, a close with nothing in flight leaves nothing alive: the subject is
      disconnected until it is opened again, whatever else is called. */
  lemma CloseIsFinal(steps: seq<Step>, later: seq<Step>)
    requires CanRun(Init(), steps) && !DoubleOpen(Init(), steps)
    requires Run(Init(), steps).guards == 0 && Run(Init(), steps).opens == 0
    requires CanRun(Next(Run(Init(), steps), Step.Close), later) && NoOpens(later)
    ensures var l := Run(Next(Run(Init(), steps), Step.Close), later).link; l.conn.None? && l.subs.None?
  {
    OrphansExactly(Init(), steps);
    RestLasts(Next(Run(Init(), steps), Step.Close), later);
  }

  /** Two threads open a closed subject at once: the executor of the first is an orphan. */
  lemma OpenedTwice() returns (s: State)
    ensures Reached(7, s) && !s.listening && s.opens == 0 && s.orphans == 1 && s.link == Link(Some(0), None, 1, {})
  {
    hide Reached;
    var y, n, nothing := Answer(true, true, true), Answer(false, false, false), Link(None, None, 0, {});
    s := Started();
    s := Then(0, s, OpenCheck, nothing);
    s := Then(1, s, OpenBody(n), nothing);
    s := Then(2, s, Step.Close, nothing);
    s := Then(3, s, OpenCheck, nothing);
    s := Then(4, s, OpenCheck, nothing);
    s := Then(5, s, OpenBody(n), nothing);
    s := Then(6, s, OpenBody(y), Link(Some(0), None, 1, {}));
  }

  /** Closed again, the subject is reconnected by the guard of that executor. */
  lemma OverlappingOpensReconnect() returns (s: State)
    ensures Reached(10, s) && !s.isOpened && !s.execs && s.opens == 0 && s.link.conn.Some?
  {
    hide Reached;
    s := OpenedTwice();
    s := Then(7, s, Step.Close, Link(None, None, 1, {0}));
    s := Then(8, s, GuardCheck(false), Link(None, None, 1, {0}));
    s := Then(9, s, GuardBody(Answer(true, true, true)), Link(Some(1), None, 2, {0}));
  }

  // ---------------------------------------------------------------- messages

  function Flatten(batches: seq<seq<string>>): seq<string> {
    if batches == [] then [] else Flatten(batches[..|batches| - 1]) + batches[|batches| - 1]
  }

  /** The payloads that arrive in a run, in order. */
  function Payloads(steps: seq<Step>): seq<string> {
    if steps == [] then []
    else (if steps[0].Message? then [steps[0].payload] else []) + Payloads(steps[1..])
  }

  lemma PayloadsStep(s: State, step: Step)
    requires Enabled(s, step)
    ensures var s' := Next(s, step);
      Flatten(s'.drained) + s'.received ==
      Flatten(s.drained) + s.received + if step.Message? then [step.payload] else []
  {
    var f := Flatten(s.drained);
    if step.Drain? {
      var d := WithBatch(s.drained, s.received);
      assert d[..|d| - 1] == s.drained;
      assert Flatten(d) == f + s.received;
    } else {
      hide Flatten;
      if step.Message? { assert f + (s.received + [step.payload]) == f + s.received + [step.payload]; }
    }
  }

  /** Across any interleaving of arrivals, drains, listens, forgets, closes and re-opens: what was drained, in
      order, followed by the queue, is what was there before followed by what arrived. No payload is
      lost, duplicated or reordered at the queue. */
  lemma {:induction false} MessageConservation(s: State, steps: seq<Step>)
    requires CanRun(s, steps)
    ensures Flatten(Run(s, steps).drained) + Run(s, steps).received == Flatten(s.drained) + s.received + Payloads(steps)
    decreases |steps|
  {
    hide Next, Flatten, Enabled;
    if steps != [] {
      PayloadsStep(s, steps[0]);
      MessageConservation(Next(s, steps[0]), steps[1..]);
    }
  }

  predicate NoDrain(steps: seq<Step>) {
    forall i :: 0 <= i < |steps| ==> !steps[i].Drain?
  }

  lemma {:induction false} QueueGrows(s: State, steps: seq<Step>)
    requires CanRun(s, steps) && NoDrain(steps)
    ensures Run(s, steps).received == s.received + Payloads(steps) && Run(s, steps).drained == s.drained
    decreases |steps|
  {
    hide Next, Enabled;
    if steps != [] {
      QueueStep(s, steps[0]);
      QueueGrows(Next(s, steps[0]), steps[1..]);
    }
  }

  lemma QueueStep(s: State, step: Step)
    requires Enabled(s, step) && !step.Drain?
    ensures Next(s, step).received == s.received + if step.Message? then [step.payload] else []
    ensures Next(s, step).drained == s.drained
  {
    hide WithBatch, Attach, CloseConn, CloseSubs, Subscribe;
  }

  /** A drain hands out everything in the queue and leaves nothing of it behind: until the next one the queue
      holds what has arrived since. */
  lemma DrainTakesAll(s: State, later: seq<Step>)
    requires CanRun(Next(s, Drain), later) && NoDrain(later)
    ensures var s' := Run(Next(s, Drain), later);
      s'.received == Payloads(later) && s'.drained == s.drained + [s.received]
  {
    QueueGrows(Next(s, Drain), later);
  }

  /** How many payloads the first b batches hold. */
  function Offset(batches: seq<seq<string>>, b: nat): nat
    requires b <= |batches|
  {
    |Flatten(batches[..b])|
  }

  lemma OffsetStep(batches: seq<seq<string>>, b: nat)
    requires b < |batches|
    ensures Offset(batches, b + 1) == Offset(batches, b) + |batches[b]|
  {
    assert batches[..b + 1][..b] == batches[..b];
  }

  lemma {:induction false} OffsetMonotone(batches: seq<seq<string>>, a: nat, b: nat)
    requires a <= b <= |batches|
    ensures Offset(batches, a) <= Offset(batches, b)
    decreases b - a
  {
    if a < b {
      OffsetStep(batches, a);
      OffsetMonotone(batches, a + 1, b);
    }
  }

  /** Arrival number i was handed to drain number b. */
  predicate DrainedIn(batches: seq<seq<string>>, i: nat, b: nat) {
    b < |batches| && Offset(batches, b) <= i < Offset(batches, b + 1)
  }

  /** Batch b holds arrival number i, at the place where it belongs. */
  predicate Holds(batches: seq<seq<string>>, i: nat, b: nat, payload: string) {
    && DrainedIn(batches, i, b)
    && i - Offset(batches, b) < |batches[b]| && batches[b][i - Offset(batches, b)] == payload
  }

  lemma HeldOnce(batches: seq<seq<string>>, i: nat) returns (b: nat)
    requires i < |Flatten(batches)|
    ensures Holds(batches, i, b, Flatten(batches)[i])
    ensures forall c: nat :: DrainedIn(batches, i, c) ==> c == b
  {
    assert batches[..|batches|] == batches;
    b := FindBatch(batches, i, |batches|);
    OffsetStep(batches, b);
    forall c: nat | DrainedIn(batches, i, c) ensures c == b {
      if b < c { OffsetMonotone(batches, b + 1, c); }
      if c < b { OffsetMonotone(batches, c + 1, b); }
    }
  }

  /** In every run of a new subject, each arrival no longer in the queue was handed to exactly one drain, at its
      place in that batch. */
  lemma DrainedOnce(steps: seq<Step>, i: nat)
    requires CanRun(Init(), steps) && i < |Payloads(steps)| - |Run(Init(), steps).received|
    ensures var d := Run(Init(), steps).drained;
      exists b: nat :: Holds(d, i, b, Payloads(steps)[i]) && forall c: nat :: DrainedIn(d, i, c) ==> c == b
  {
    var s := Run(Init(), steps);
    MessageConservation(Init(), steps);
    assert Flatten(Init().drained) + Init().received == [];
    hide Run, Payloads, Flatten, Holds, DrainedIn, Init;
    assert Flatten(s.drained) + s.received == Payloads(steps);
    assert Payloads(steps)[i] == Flatten(s.drained)[i];
    var b := HeldOnce(s.drained, i);
  }

  lemma {:induction false} FindBatch(batches: seq<seq<string>>, i: nat, n: nat) returns (b: nat)
    requires n <= |batches| && i < Offset(batches, n)
    ensures b < n && Offset(batches, b) <= i < Offset(batches, b + 1)
    ensures i - Offset(batches, b) < |batches[b]|
    ensures Flatten(batches[..n])[i] == batches[b][i - Offset(batches, b)]
    decreases n
  {
    OffsetStep(batches, n - 1);
    assert batches[..n][..n - 1] == batches[..n - 1];
    if i < Offset(batches, n - 1) {
      b := FindBatch(batches, i, n - 1);
    } else {
      b := n - 1;
    }
  }
}
