/** Recovering a service name from a client id. Reconnect makes client ids by appending "-" and a random
    uuid to the service name; getServiceID undoes that with a regular expression and trimming. */
module ServiceId {
  import opened Text

  // ---------------------------------------------------------------- the regular expression

  datatype Re = Eps | Any | Lit(c: char) | Cat(a: Re, b: Re) | Plus(a: Re)

  /** s matches re; a dot matches anything but a newline. */
  ghost predicate In(re: Re, s: string)
    decreases re, |s|
  {
    match re
    case Eps => s == ""
    case Any => |s| == 1 && s[0] != '\n'
    case Lit(c) => s == [c]
    case Cat(a, b) => exists k :: 0 <= k <= |s| && In(a, s[..k]) && In(b, s[k..])
    case Plus(a) => In(a, s) || exists k :: 0 < k < |s| && In(a, s[..k]) && In(re, s[k..])
  }

  function Dots(n: nat, rest: Re): Re {
    if n == 0 then rest else Cat(Any, Dots(n - 1, rest))
  }

  /** .+?- (laziness only chooses among matches; see SplitIsUnique) */
  const HEAD: Re := Cat(Plus(Any), Lit('-'))

  /** .{8}-.{4}-.{4}-.{4}-.{12} */
  const TAIL: Re :=
    Dots(8, Cat(Lit('-'), Dots(4, Cat(Lit('-'), Dots(4, Cat(Lit('-'), Dots(4, Cat(Lit('-'), Dots(12, Eps)))))))))

  /** The expression, anchored at both ends, matches s with its group ending at k. */
  ghost predicate Split(s: string, k: nat) {
    k <= |s| && In(HEAD, s[..k]) && In(TAIL, s[k..])
  }

  // ---------------------------------------------------------------- what it means

  predicate NoNewline(s: string) {
    forall i :: 0 <= i < |s| ==> s[i] != '\n'
  }

  lemma DotMeans(rest: Re, s: string)
    ensures In(Cat(Any, rest), s) <==> s != "" && s[0] != '\n' && In(rest, s[1..])
  {
    if In(Cat(Any, rest), s) {
      var k :| 0 <= k <= |s| && In(Any, s[..k]) && In(rest, s[k..]);
      assert k == 1;
    }
    if s != "" && s[0] != '\n' && In(rest, s[1..]) { assert In(Any, s[..1]); }
  }

  lemma {:induction false} DotsMean(n: nat, rest: Re, s: string)
    ensures In(Dots(n, rest), s) <==> n <= |s| && NoNewline(s[..n]) && In(rest, s[n..])
    decreases n
  {
    hide In;
    if n == 0 {
      assert s[0..] == s;
    } else {
      DotMeans(Dots(n - 1, rest), s);
      if n <= |s| {
        DotsMean(n - 1, rest, s[1..]);
        assert s[1..][n - 1..] == s[n..] && s[..n] == [s[0]] + s[1..][..n - 1];
        assert NoNewline(s[..n]) <==> s[0] != '\n' && NoNewline(s[1..][..n - 1]);
      } else if s != "" {
        DotsMean(n - 1, rest, s[1..]);
      }
    }
  }

  lemma DashMeans(rest: Re, s: string)
    ensures In(Cat(Lit('-'), rest), s) <==> s != "" && s[0] == '-' && In(rest, s[1..])
  {
    if In(Cat(Lit('-'), rest), s) {
      var k :| 0 <= k <= |s| && In(Lit('-'), s[..k]) && In(rest, s[k..]);
      assert k == 1;
    }
    if s != "" && s[0] == '-' && In(rest, s[1..]) { assert In(Lit('-'), s[..1]); }
  }

  predicate HasShape(s: string) {
    && |s| == 36 && s[8] == '-' && s[13] == '-' && s[18] == '-' && s[23] == '-'
    && NoNewline(s)
  }

  predicate NoNewlineIn(s: string, from: nat, to: nat)
    requires to <= |s|
  {
    forall i :: from <= i < to ==> s[i] != '\n'
  }

  /** A run of n dots and a dash, read at position from. */
  lemma Group(from: nat, n: nat, rest: Re, s: string)
    requires from <= |s|
    ensures In(Dots(n, Cat(Lit('-'), rest)), s[from..]) <==>
      from + n < |s| && NoNewlineIn(s, from, from + n) && s[from + n] == '-' && In(rest, s[from + n + 1..])
  {
    var t := s[from..];
    DotsMean(n, Cat(Lit('-'), rest), t);
    if n <= |t| {
      assert t[n..] == s[from + n..];
      assert NoNewline(t[..n]) <==> NoNewlineIn(s, from, from + n) by {
        assert forall i :: 0 <= i < n ==> t[..n][i] == s[from + i];
        assert forall i :: from <= i < from + n ==> s[i] == t[..n][i - from];
      }
      DashMeans(rest, s[from + n..]);
      assert n < |t| ==> s[from + n..][1..] == s[from + n + 1..];
    }
  }

  lemma Last(from: nat, s: string)
    requires from <= |s|
    ensures In(Dots(12, Eps), s[from..]) <==> |s| == from + 12 && NoNewlineIn(s, from, |s|)
  {
    var t := s[from..];
    DotsMean(12, Eps, t);
    if |t| == 12 {
      assert t[..12] == t && t[12..] == "";
      assert forall i :: from <= i < |s| ==> s[i] == t[i - from];
    }
  }

  /** The last three groups of a uuid, from position from on. */
  lemma TailEnds(from: nat, s: string)
    requires from <= |s|
    ensures In(Dots(4, Cat(Lit('-'), Dots(4, Cat(Lit('-'), Dots(12, Eps))))), s[from..]) <==>
      |s| == from + 22 && s[from + 4] == '-' && s[from + 9] == '-' && NoNewlineIn(s, from, |s|)
  {
    var last := Dots(12, Eps);
    hide In, Dots;
    Group(from, 4, Dots(4, Cat(Lit('-'), last)), s);
    if from + 5 <= |s| { Group(from + 5, 4, last, s); }
    if from + 10 <= |s| { Last(from + 10, s); }
  }

  lemma TailMeans(s: string)
    ensures In(TAIL, s) <==> HasShape(s)
  {
    var t2 := Dots(4, Cat(Lit('-'), Dots(4, Cat(Lit('-'), Dots(12, Eps)))));
    var t1 := Dots(4, Cat(Lit('-'), t2));
    hide In, Dots;
    assert TAIL == Dots(8, Cat(Lit('-'), t1)) && s[0..] == s;
    Group(0, 8, t1, s);
    if 9 <= |s| { Group(9, 4, t2, s); }
    if 14 <= |s| { TailEnds(14, s); }
  }

  lemma {:induction false} PlusMeans(s: string)
    ensures In(Plus(Any), s) <==> s != "" && NoNewline(s)
    decreases |s|
  {
    if |s| > 1 { PlusMeans(s[1..]); }
    if In(Plus(Any), s) && !In(Any, s) {
      var k :| 0 < k < |s| && In(Any, s[..k]) && In(Plus(Any), s[k..]);
      assert k == 1;
      assert forall i :: 1 <= i < |s| ==> s[i] == s[1..][i - 1];
    }
    if |s| > 1 && NoNewline(s) { assert In(Any, s[..1]) && NoNewline(s[1..]); }
  }

  lemma HeadMeans(s: string)
    ensures In(HEAD, s) <==> |s| >= 2 && s[|s| - 1] == '-' && NoNewline(s)
  {
    if In(HEAD, s) {
      var k :| 0 <= k <= |s| && In(Plus(Any), s[..k]) && In(Lit('-'), s[k..]);
      PlusMeans(s[..k]);
      assert k == |s| - 1 && s[k] == s[k..][0];
      assert forall i :: 0 <= i < k ==> s[i] == s[..k][i];
    }
    if |s| >= 2 && s[|s| - 1] == '-' && NoNewline(s) {
      PlusMeans(s[..|s| - 1]);
      assert In(Lit('-'), s[|s| - 1..]);
    }
  }

  /** The text ends in a dash and 36 characters of a uuid's shape, after at least one other character. */
  predicate HasSuffix(s: string) {
    |s| >= 38 && s[|s| - 37] == '-' && NoNewline(s[..|s| - 36]) && HasShape(s[|s| - 36..])
  }

  /** There is at most one way to match, so the lazy one is it: the group is all but the last 36 characters. */
  lemma SplitIsUnique(s: string, k: nat)
    ensures Split(s, k) <==> HasSuffix(s) && k == |s| - 36
  {
    if k <= |s| {
      HeadMeans(s[..k]);
      TailMeans(s[k..]);
    }
  }

  // ---------------------------------------------------------------- getServiceID

  /** The replacement in Go, where $ is the end of the text. */
  function Strip(s: string): string {
    if HasSuffix(s) then s[..|s| - 36] else s
  }

  /** The replacement in .NET, where $ also matches before a final newline. */
  function StripNet(s: string): string {
    if HasSuffix(s) then s[..|s| - 36]
    else if s != "" && s[|s| - 1] == '\n' && HasSuffix(s[..|s| - 1]) then s[..|s| - 37] + "\n"
    else s
  }

  /** Replacing the match by its group. */
  lemma StripReplaces(s: string)
    ensures forall k: nat :: Split(s, k) ==> Strip(s) == s[..k]
    ensures (forall k: nat :: !Split(s, k)) ==> Strip(s) == s
  {
    forall k: nat ensures Split(s, k) <==> HasSuffix(s) && k == |s| - 36 { SplitIsUnique(s, k); }
    if HasSuffix(s) { assert Split(s, |s| - 36); }
  }

  /** In .NET the match may leave a final newline behind; e is where it ends. */
  ghost predicate SplitNet(s: string, k: nat, e: nat) {
    (e == |s| || (e + 1 == |s| && s[e] == '\n')) && Split(s[..e], k)
  }

  lemma SuffixEndsLine(s: string)
    ensures HasSuffix(s) ==> s[|s| - 1] != '\n'
  {
    if HasSuffix(s) { assert s[|s| - 36..][35] == s[|s| - 1]; }
  }

  lemma StripNetReplaces(s: string)
    ensures forall k: nat, e: nat :: SplitNet(s, k, e) ==> k <= e <= |s| && StripNet(s) == s[..k] + s[e..]
    ensures (forall k: nat, e: nat :: !SplitNet(s, k, e)) ==> StripNet(s) == s
  {
    assert s[..|s|] == s;
    SuffixEndsLine(s);
    forall k: nat, e: nat | SplitNet(s, k, e) ensures k <= e <= |s| && StripNet(s) == s[..k] + s[e..] {
      SplitIsUnique(s[..e], k);
      assert s[..e][..k] == s[..k];
      if e < |s| { assert s[e..] == "\n"; }
    }
    if HasSuffix(s) {
      SplitIsUnique(s, |s| - 36);
      assert SplitNet(s, |s| - 36, |s|);
    } else if s != "" && s[|s| - 1] == '\n' && HasSuffix(s[..|s| - 1]) {
      SplitIsUnique(s[..|s| - 1], |s| - 37);
      assert SplitNet(s, |s| - 37, |s| - 1);
    }
  }

  function GoServiceId(s: string): string {
    var r := Trim(Trim(Strip(s), IsDash), IsSpace);
    if r == "" then s else r
  }

  function CSharpServiceId(s: string): string {
    var r := Trim(StripNet(s), IsDash);
    if AllSpace(r) then s else r
  }

  // ---------------------------------------------------------------- trimming

  lemma {:induction false} TrimLeftCuts(s: string, cut: char -> bool) returns (k: nat)
    ensures k <= |s| && TrimLeft(s, cut) == s[k..]
    ensures forall i :: 0 <= i < k ==> cut(s[i])
    ensures k < |s| ==> !cut(s[k])
    decreases |s|
  {
    k := 0;
    if s != "" && cut(s[0]) {
      var j := TrimLeftCuts(s[1..], cut);
      k := j + 1;
      assert s[1..][j..] == s[k..];
      forall i | 0 <= i < k ensures cut(s[i]) { if i > 0 { assert s[i] == s[1..][i - 1]; } }
    }
  }

  lemma {:induction false} TrimRightCuts(s: string, cut: char -> bool) returns (k: nat)
    ensures k <= |s| && TrimRight(s, cut) == s[..k]
    ensures forall i :: k <= i < |s| ==> cut(s[i])
    ensures k > 0 ==> !cut(s[k - 1])
    decreases |s|
  {
    k := |s|;
    if s != "" && cut(s[|s| - 1]) {
      k := TrimRightCuts(s[..|s| - 1], cut);
      assert s[..|s| - 1][..k] == s[..k];
    } else {
      assert s[..|s|] == s;
    }
  }

  /** Trimming returns the part of s between its first and its last character that is not cut. */
  lemma TrimCuts(s: string, cut: char -> bool) returns (k: nat, l: nat)
    ensures k <= l <= |s| && Trim(s, cut) == s[k..l]
    ensures forall i :: 0 <= i < k || l <= i < |s| ==> cut(s[i])
    ensures k < l ==> !cut(s[k]) && !cut(s[l - 1])
  {
    k := TrimLeftCuts(s, cut);
    var j := TrimRightCuts(s[k..], cut);
    l := k + j;
    assert s[k..][..j] == s[k..l];
    forall i | l <= i < |s| ensures cut(s[i]) { assert s[i] == s[k..][i - k]; }
    if k < l { assert s[k..][j - 1] == s[l - 1] && k < |s|; }
  }

  predicate Bare(s: string, cut: char -> bool) {
    s != "" ==> !cut(s[0]) && !cut(s[|s| - 1])
  }

  /** Trimming changes s exactly when it has something to cut, and only ever shortens it. */
  lemma TrimKeeps(s: string, cut: char -> bool)
    ensures Trim(s, cut) == s <==> Bare(s, cut)
    ensures |Trim(s, cut)| <= |s| && (|Trim(s, cut)| == |s| ==> Trim(s, cut) == s)
  {
    var k, l := TrimCuts(s, cut);
    if l - k == |s| { assert s[k..l] == s; }
  }

  /** Trimming s[k..l] out of s is unique. */
  lemma TrimIs(s: string, cut: char -> bool, k: nat, l: nat)
    requires k < l <= |s| && !cut(s[k]) && !cut(s[l - 1])
    requires forall i :: 0 <= i < k || l <= i < |s| ==> cut(s[i])
    ensures Trim(s, cut) == s[k..l]
  {
    var k', l' := TrimCuts(s, cut);
    assert k' <= k && l <= l';
  }

  /** A trailing character that is cut makes no difference. */
  lemma TrimSnoc(s: string, cut: char -> bool, c: char)
    requires cut(c)
    ensures Trim(s + [c], cut) == Trim(s, cut)
  {
    var k, l := TrimCuts(s, cut);
    if k < l {
      TrimIs(s + [c], cut, k, l);
      assert (s + [c])[k..l] == s[k..l];
    } else {
      var k', l' := TrimCuts(s + [c], cut);
      assert forall i :: 0 <= i < |s| ==> cut(s[i]);
      assert forall i :: 0 <= i < |s| + 1 ==> cut((s + [c])[i]);
    }
  }

  /** r is what is left of s when the characters of cut are taken off both ends, as many as there are. */
  ghost predicate Trimmed(s: string, cut: char -> bool, r: string) {
    Bare(r, cut) && exists k: nat, l: nat :: k <= l <= |s| && r == s[k..l] && CutOutside(s, cut, k, l)
  }

  ghost predicate CutOutside(s: string, cut: char -> bool, k: nat, l: nat) {
    forall i :: 0 <= i < |s| && (i < k || l <= i) ==> cut(s[i])
  }

  /** There is exactly one such text, and Trim finds it. */
  lemma TrimExactly(s: string, cut: char -> bool, r: string)
    ensures Trimmed(s, cut, r) <==> r == Trim(s, cut)
  {
    var k, l := TrimCuts(s, cut);
    if r == Trim(s, cut) {
      assert CutOutside(s, cut, k, l);
    }
    if Trimmed(s, cut, r) {
      var k': nat, l': nat :| k' <= l' <= |s| && r == s[k'..l'] && CutOutside(s, cut, k', l');
      if k' < l' { TrimIs(s, cut, k', l'); }
    }
  }

  /** r is s without its uuid, if s ends in one after a dash and a name. */
  ghost predicate Unsuffixed(s: string, r: string) {
    (exists k: nat :: Split(s, k) && r == s[..k]) || (r == s && forall k: nat :: !Split(s, k))
  }

  /** The same in .NET, where the match may end before a final newline. */
  ghost predicate UnsuffixedNet(s: string, r: string) {
    || (exists k: nat, e: nat :: SplitNet(s, k, e) && k <= e <= |s| && r == s[..k] + s[e..])
    || (r == s && forall k: nat, e: nat :: !SplitNet(s, k, e))
  }

  /** Go's getServiceID, on every input: the uuid goes if the expression matches, then dashes, then white space;
      if nothing is left the input is returned. The three texts are determined. */
  lemma GoServiceIdMeans(s: string, a: string, b: string, c: string)
    requires Unsuffixed(s, a) && Trimmed(a, IsDash, b) && Trimmed(b, IsSpace, c)
    ensures GoServiceId(s) == if c == "" then s else c
  {
    StripReplaces(s);
    TrimExactly(a, IsDash, b);
    TrimExactly(b, IsSpace, c);
    hide Trimmed, Split, HasSuffix, Trim, Strip;
  }

  /** C#'s, on every input: only dashes are trimmed, and a blank result counts as nothing. */
  lemma CSharpServiceIdMeans(s: string, a: string, b: string)
    requires UnsuffixedNet(s, a) && Trimmed(a, IsDash, b)
    ensures CSharpServiceId(s) == if AllSpace(b) then s else b
  {
    StripNetReplaces(s);
    TrimExactly(a, IsDash, b);
    hide Trimmed, SplitNet, HasSuffix, Trim, StripNet;
  }

  /** Such texts exist for every input. */
  lemma ServiceIdTexts(s: string) returns (a: string, b: string, c: string, net: string, d: string)
    ensures Unsuffixed(s, a) && Trimmed(a, IsDash, b) && Trimmed(b, IsSpace, c)
    ensures UnsuffixedNet(s, net) && Trimmed(net, IsDash, d)
  {
    StripReplaces(s);
    StripNetReplaces(s);
    a, net := Strip(s), StripNet(s);
    b, d := Trim(a, IsDash), Trim(net, IsDash);
    c := Trim(b, IsSpace);
    TrimExactly(a, IsDash, b);
    TrimExactly(b, IsSpace, c);
    TrimExactly(net, IsDash, d);
    hide Trimmed, Split, SplitNet, HasSuffix, Trim, Strip, StripNet;
  }

  // ---------------------------------------------------------------- round trip

  predicate IsHex(c: char) {
    '0' <= c <= '9' || 'a' <= c <= 'f' || 'A' <= c <= 'F'
  }

  /** The text form of section 3 of RFC 4122. */
  predicate IsUuid(u: string) {
    && |u| == 36 && u[8] == '-' && u[13] == '-' && u[18] == '-' && u[23] == '-'
    && forall i :: 0 <= i < 36 && i != 8 && i != 13 && i != 18 && i != 23 ==> IsHex(u[i])
  }

  /** The client id reconnect makes. */
  function ClientId(name: string, u: string): string {
    name + "-" + u
  }

  lemma StripClientId(name: string, u: string)
    requires IsUuid(u)
    ensures HasSuffix(ClientId(name, u)) <==> name != "" && NoNewline(name)
    ensures Strip(ClientId(name, u)) == StripNet(ClientId(name, u)) ==
            if name != "" && NoNewline(name) then name + "-" else ClientId(name, u)
  {
    var s := ClientId(name, u);
    assert s[|s| - 36..] == u && s[..|s| - 36] == name + "-";
    assert s[|s| - 1] == u[35];
    assert NoNewline(name + "-") <==> NoNewline(name) by {
      assert forall i :: 0 <= i < |name| ==> (name + "-")[i] == name[i];
    }
  }

  /** Go: the round trip succeeds exactly for non-empty names on one line that neither begin nor end with
      a dash or white space. */
  lemma GoRoundTrip(name: string, u: string)
    requires IsUuid(u)
    ensures GoServiceId(ClientId(name, u)) == name <==>
      name != "" && NoNewline(name) && Bare(name, IsDash) && Bare(name, IsSpace)
  {
    var s := ClientId(name, u);
    StripClientId(name, u);
    if name != "" && NoNewline(name) {
      TrimSnoc(name, IsDash, '-');
      TrimKeeps(name, IsDash);
      TrimKeeps(Trim(name, IsDash), IsSpace);
      TrimKeeps(name, IsSpace);
    } else if name != "" {
      GoTrimNeverUndoes(name, u);
    }
  }

  /** When the expression does not match, trimming alone never gives the name back. */
  lemma GoTrimNeverUndoes(name: string, u: string)
    requires IsUuid(u) && name != ""
    ensures Trim(Trim(ClientId(name, u), IsDash), IsSpace) != name
  {
    var s := ClientId(name, u);
    assert s[|s| - 1] == u[35] && s[|s| - 36] == u[0];
    var k, l := TrimCuts(s, IsDash);
    assert l == |s|;
    var s1 := s[k..l];
    var k1, l1 := TrimCuts(s1, IsSpace);
    assert s1 != "" && s1[|s1| - 1] == s[|s| - 1];
    assert l1 == |s1|;
    assert s1[k1..l1] == s[k + k1..];
    if s[k + k1..] == name {
      forall i | 0 <= i < k + k1 ensures IsDash(s[i]) || IsSpace(s[i]) { if i >= k { assert s[i] == s1[i - k]; } }
      Period(s, name);
    }
  }

  /** A text that begins with name and, 37 characters later, is name again repeats its first 37 characters. */
  lemma Period(s: string, name: string)
    requires |s| == |name| + 37 && s[..|name|] == name && s[37..] == name
    requires forall i :: 0 <= i < 37 ==> IsDash(s[i]) || IsSpace(s[i])
    ensures forall i :: 0 <= i < |s| ==> IsDash(s[i]) || IsSpace(s[i])
  {
    forall i | 0 <= i < |s| ensures IsDash(s[i]) || IsSpace(s[i]) { PeriodAt(s, name, i); }
  }

  lemma {:induction false} PeriodAt(s: string, name: string, i: nat)
    requires |s| == |name| + 37 && s[..|name|] == name && s[37..] == name && i < |s|
    requires forall i :: 0 <= i < 37 ==> IsDash(s[i]) || IsSpace(s[i])
    ensures IsDash(s[i]) || IsSpace(s[i])
    decreases i
  {
    if i >= 37 {
      assert s[i] == s[37..][i - 37] == name[i - 37] == s[..|name|][i - 37] == s[i - 37];
      PeriodAt(s, name, i - 37);
    }
  }

  /** C#: the round trip succeeds exactly for names on one line that are not white space only and neither
      begin nor end with a dash. */
  lemma CSharpRoundTrip(name: string, u: string)
    requires IsUuid(u)
    ensures CSharpServiceId(ClientId(name, u)) == name <==>
      !AllSpace(name) && NoNewline(name) && Bare(name, IsDash)
  {
    var s := ClientId(name, u);
    StripClientId(name, u);
    if name != "" && NoNewline(name) {
      TrimSnoc(name, IsDash, '-');
      TrimKeeps(name, IsDash);
    } else {
      assert s[|s| - 1] == u[35] && s[|s| - 36] == u[0];
      var k, l := TrimCuts(s, IsDash);
      assert l == |s|;
      assert s[0] == if name == "" then '-' else name[0];
      assert Trim(s, IsDash) == s[k..];
      assert k < |s| && s[k..][0] == s[k] && s[k..][|s| - k - 1] == s[|s| - 1];
      assert k == 37 ==> IsDash(s[0]);
    }
  }
}
