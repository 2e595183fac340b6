/** The three publish loops. Attempts and waits are numbered from 0: attempt i precedes wait i. */
module Retry {
  import opened Base
  import opened Text

  /** waits: the delays begun, in order. */
  datatype Result = Result(ok: bool, attempts: nat, waits: seq<nat>)

  /** succeeds(i): attempt i succeeds. stop(i): wait i is cut short by an abort. */
  function RetryFrom(delays: seq<nat>, succeeds: nat -> bool, stop: nat -> bool, i: nat): Result
    requires i <= |delays|
    decreases |delays| - i
  {
    if succeeds(i) then Result(true, i + 1, delays[..i])
    else if i == |delays| then Result(false, i + 1, delays)
    else if stop(i) then Result(false, i + 1, delays[..i + 1])
    else RetryFrom(delays, succeeds, stop, i + 1)
  }

  function Retry(delays: seq<nat>, succeeds: nat -> bool, stop: nat -> bool): Result {
    RetryFrom(delays, succeeds, stop, 0)
  }

  // ---------------------------------------------------------------- meaning

  /** Attempt k succeeds and none before it does. */
  ghost predicate FirstSuccess(succeeds: nat -> bool, k: nat) {
    succeeds(k) && forall i: nat :: i < k ==> !succeeds(i)
  }

  /** What the loop does, without the loop: no attempt but the last succeeded and no wait but the last
      was cut short; it stopped because of a success, an abort or the end of the delays. */
  ghost predicate Meaning(delays: seq<nat>, succeeds: nat -> bool, stop: nat -> bool, r: Result) {
    && 1 <= r.attempts <= |delays| + 1
    && (forall i: nat :: i < r.attempts - 1 ==> !succeeds(i) && !stop(i))
    && r.ok == succeeds(r.attempts - 1)
    && (if r.ok || r.attempts == |delays| + 1 then r.waits == delays[..r.attempts - 1]
        else stop(r.attempts - 1) && r.waits == delays[..r.attempts])
  }

  lemma {:induction false} RetryFromMeaning(delays: seq<nat>, succeeds: nat -> bool, stop: nat -> bool, i: nat)
    requires i <= |delays| && forall j: nat :: j < i ==> !succeeds(j) && !stop(j)
    ensures Meaning(delays, succeeds, stop, RetryFrom(delays, succeeds, stop, i))
    decreases |delays| - i
  {
    assert delays[..|delays|] == delays;
    if !succeeds(i) && i < |delays| && !stop(i) { RetryFromMeaning(delays, succeeds, stop, i + 1); }
  }

  /** The meaning determines the result, so Retry is the one function that has it. */
  lemma RetryExactly(delays: seq<nat>, succeeds: nat -> bool, stop: nat -> bool, r: Result)
    ensures Meaning(delays, succeeds, stop, r) <==> r == Retry(delays, succeeds, stop)
  {
    RetryFromMeaning(delays, succeeds, stop, 0);
    var q := Retry(delays, succeeds, stop);
    if Meaning(delays, succeeds, stop, r) {
      var k: nat, l: nat := r.attempts - 1, q.attempts - 1;
      assert k < l ==> !succeeds(k) && !stop(k);
      assert l < k ==> !succeeds(l) && !stop(l);
    }
  }

  /** Without an abort: as many attempts as it takes to succeed, at most one more than there are delays,
      exactly the delays between them, and failure exactly when every attempt fails. */
  lemma UninterruptedRetry(delays: seq<nat>, succeeds: nat -> bool, stop: nat -> bool)
    requires forall i: nat :: !stop(i)
    ensures var r := Retry(delays, succeeds, stop);
      && 1 <= r.attempts <= |delays| + 1 && r.waits == delays[..r.attempts - 1]
      && (forall k: nat :: k <= |delays| && FirstSuccess(succeeds, k) ==> r.attempts == k + 1)
      && ((forall i: nat :: i <= |delays| ==> !succeeds(i)) ==> r.attempts == |delays| + 1)
      && (!r.ok <==> forall i: nat :: i <= |delays| ==> !succeeds(i))
  {
    RetryFromMeaning(delays, succeeds, stop, 0);
    var r := Retry(delays, succeeds, stop);
    var last: nat := r.attempts - 1;
    forall k: nat | k <= |delays| && FirstSuccess(succeeds, k) ensures r.attempts == k + 1 {
      assert last < k ==> !succeeds(last);
    }
  }

  // ---------------------------------------------------------------- Go

  method GoRetryWithDelays(delays: seq<nat>, succeeds: nat -> bool, aborted: nat -> bool) returns (r: Result)
    ensures r == Retry(delays, succeeds, aborted)
  {
    var failed, attempts, waits := false, 0, [];
    var isAborted := false;
    var idx, sum := 0, |delays|;
    while !isAborted && idx <= sum
      invariant 0 <= idx <= sum
      invariant if isAborted
                then failed && Result(false, attempts, waits) == Retry(delays, succeeds, aborted)
                else attempts == idx && waits == delays[..idx] &&
                     RetryFrom(delays, succeeds, aborted, idx) == Retry(delays, succeeds, aborted)
      decreases sum - idx
    {
      attempts := attempts + 1;
      failed := !succeeds(idx);
      if !failed { break; }
      if idx >= sum { assert delays[..idx] == delays; break; }
      waits := waits + [delays[idx]];
      assert delays[..idx + 1] == delays[..idx] + [delays[idx]];
      if aborted(idx) { isAborted := true; }
      idx := idx + 1;
    }
    r := Result(!failed, attempts, waits);
  }

  /** None: the subject is empty. A nil delay list means the client's own. */
  method GoPublish(subject: string, delays: Option<seq<nat>>, retryDelays: seq<nat>, succeeds: nat -> bool,
                   aborted: nat -> bool)
    returns (r: Option<Result>)
    ensures r == if subject == "" then None
                 else Some(Retry(if delays.None? then retryDelays else delays.value, succeeds, aborted))
  {
    if subject == "" { return None; }
    var list := if delays.None? then retryDelays else delays.value;
    var q := GoRetryWithDelays(list, succeeds, aborted);
    r := Some(q);
  }

  // ---------------------------------------------------------------- C#

  /** None: the subject is null, empty or white space. */
  method CSharpPublish(subject: Option<string>, delays: Option<seq<nat>>, retryDelays: seq<nat>, succeeds: nat -> bool,
                       aborted: nat -> bool)
    returns (r: Option<Result>)
    ensures r == if subject.None? || AllSpace(subject.value) then None
                 else Some(Retry(if delays.None? then retryDelays else delays.value, succeeds, aborted))
  {
    if subject.None? || AllSpace(subject.value) { return None; }
    var list := if delays.None? then retryDelays else delays.value;
    var error, attempts, waits := false, 0, [];
    var sum := |list|;
    ghost var whole := Retry(list, succeeds, aborted);
    for idx := 0 to sum + 1
      invariant attempts == idx && (idx > 0 ==> error)
      invariant idx <= sum ==> waits == list[..idx] && RetryFrom(list, succeeds, aborted, idx) == whole
      invariant idx <= sum
    {
      error := !succeeds(idx);
      attempts := attempts + 1;
      if !error { break; }
      if idx >= sum { assert list[..idx] == list; break; }
      waits := waits + [list[idx]];
      assert list[..idx + 1] == list[..idx] + [list[idx]];
      if aborted(idx) { break; }
    }
    r := Some(Result(!error, attempts, waits));
  }

  // ---------------------------------------------------------------- Java

  datatype JavaResult = IllegalArgument | Returned | Threw

  /** Attempt i is reached and succeeds: the first one always is reached, a later one unless the sleep
      before it is interrupted. */
  function Wins(succeeds: nat -> bool, interrupted: nat -> bool): nat -> bool {
    (i: nat) => (i == 0 || !interrupted(i - 1)) && succeeds(i)
  }

  function Never(): nat -> bool {
    (i: nat) => false
  }

  /** An interrupted sleep uses up its attempt; it does not end the loop. sent lists the attempts made. */
  method JavaPublish(delays: seq<nat>, silent: bool, succeeds: nat -> bool, interrupted: nat -> bool)
    returns (r: JavaResult, sent: seq<nat>, waits: seq<nat>)
    ensures delays == [] ==> r == IllegalArgument && sent == [] && waits == []
    ensures delays != [] ==>
      var q := Retry(delays, Wins(succeeds, interrupted), Never());
      && r == (if q.ok || silent then Returned else Threw)
      && waits == q.waits
      && (forall i: nat :: i in sent <==> i < q.attempts && (i == 0 || !interrupted(i - 1)))
      && (forall j, k :: 0 <= j < k < |sent| ==> sent[j] < sent[k])
  {
    if delays == [] { return IllegalArgument, [], []; }
    sent, waits := [0], [];
    ghost var wins := Wins(succeeds, interrupted);
    assert wins(0) == succeeds(0);
    if succeeds(0) { return Returned, sent, waits; }
    r := Returned;
    for i := 0 to |delays|
      invariant r == Returned && waits == delays[..i] && !wins(i) && (i == |delays| ==> silent)
      invariant RetryFrom(delays, wins, Never(), i) == Retry(delays, wins, Never())
      invariant forall j: nat :: j in sent <==> j <= i && (j == 0 || !interrupted(j - 1))
      invariant forall j, k :: 0 <= j < k < |sent| ==> sent[j] < sent[k]
    {
      waits := waits + [delays[i]];
      assert delays[..i + 1] == delays[..i] + [delays[i]];
      assert RetryFrom(delays, wins, Never(), i) == RetryFrom(delays, wins, Never(), i + 1);
      assert wins(i + 1) == (!interrupted(i) && succeeds(i + 1));
      var failed := interrupted(i);
      if !failed {
        assert forall k :: 0 <= k < |sent| ==> sent[k] in sent;
        sent := sent + [i + 1];
        failed := !succeeds(i + 1);
      }
      if !failed { break; }
      // latest attempt
      if i == |delays| - 1 && !silent {
        assert delays[..i + 1] == delays;
        r := Threw;
        return;
      }
    }
    assert delays[..|delays|] == delays;
  }

  /** Uninterrupted, the Java loop's attempts are attempts. */
  lemma {:induction false} WinsUninterrupted(delays: seq<nat>, succeeds: nat -> bool, never: nat -> bool, i: nat)
    requires i <= |delays| && forall j: nat :: !never(j)
    ensures RetryFrom(delays, Wins(succeeds, never), Never(), i) == RetryFrom(delays, succeeds, never, i)
    decreases |delays| - i
  {
    if !succeeds(i) && i < |delays| { WinsUninterrupted(delays, succeeds, never, i + 1); }
  }

  /** Three loops, one function: with delays given, nothing aborted or interrupted and silent off, all
      three make the same attempts, wait the same delays and fail together. */
  method ThreeLoops(subject: string, delays: seq<nat>, succeeds: nat -> bool, never: nat -> bool)
    returns (go: Result, cs: Result, java: JavaResult, sent: seq<nat>, waits: seq<nat>)
    requires !AllSpace(subject) && delays != [] && forall i: nat :: !never(i)
    ensures go == cs == Retry(delays, succeeds, never)
    ensures forall i: nat :: i in sent <==> i < go.attempts
    ensures waits == go.waits
    ensures java == Threw <==> !go.ok
  {
    var g := GoPublish(subject, Some(delays), [], succeeds, never);
    var c := CSharpPublish(Some(subject), Some(delays), [], succeeds, never);
    go, cs := g.value, c.value;
    java, sent, waits := JavaPublish(delays, false, succeeds, never);
    WinsUninterrupted(delays, succeeds, never, 0);
  }
}
