// What a pattern matches (lstrlib.c): the list of all ways to match, in the order in
// which backtracking tries them. An error in the pattern ends the search where it is met.

module Patterns {
  import opened Common

  const L_ESC := '%'
  const MAXCAPTURES: nat := 32

  datatype CapLen = Unfinished | Position | Len(n: int)
  datatype Capture = Capture(init: nat, len: CapLen)

  // One answer of the search.
  datatype Answer = Success(e: nat, caps: seq<Capture>) | Error

  // Strings end with a zero.
  function At(s: string, i: nat): char {
    if i < |s| then s[i] else '\0'
  }

  // ---------------------------------------------------------------- character classes

  predicate IsLower(c: char) { 'a' <= c <= 'z' }
  predicate IsUpper(c: char) { 'A' <= c <= 'Z' }
  predicate IsAlpha(c: char) { IsLower(c) || IsUpper(c) }
  predicate IsDigit(c: char) { '0' <= c <= '9' }
  predicate IsGraph(c: char) { '!' <= c <= '~' }
  predicate IsCntrl(c: char) { c < ' ' || c as int == 127 }
  predicate IsSpace(c: char) { c == ' ' || 9 <= c as int <= 13 }
  predicate IsXDigit(c: char) { IsDigit(c) || 'a' <= c <= 'f' || 'A' <= c <= 'F' }

  function ToLower(c: char): char {
    if IsUpper(c) then (c as int + 32) as char else c
  }

  // match_class, in the C locale.
  predicate MatchClass(c: char, cl: char) {
    var lower := ToLower(cl);
    if lower in {'a', 'c', 'd', 'g', 'l', 'p', 's', 'u', 'w', 'x', 'z'} then
      var res :=
        match lower
        case 'a' => IsAlpha(c)
        case 'c' => IsCntrl(c)
        case 'd' => IsDigit(c)
        case 'g' => IsGraph(c)
        case 'l' => IsLower(c)
        case 'p' => IsGraph(c) && !IsAlpha(c) && !IsDigit(c)
        case 's' => IsSpace(c)
        case 'u' => IsUpper(c)
        case 'w' => IsAlpha(c) || IsDigit(c)
        case 'x' => IsXDigit(c)
        case _ => c == '\0';
      if IsLower(cl) then res else !res
    else cl == c
  }

  // The end of the class that begins at p; None if the pattern is malformed.
  function ClassEnd(pat: string, p: nat): (e: Option<nat>)
    requires p < |pat|
    ensures e.Some? ==> p < e.value <= |pat|
  {
    if pat[p] == L_ESC then (if p + 1 == |pat| then None else Some(p + 2))
    else if pat[p] == '[' then SetEnd(pat, if At(pat, p + 1) == '^' then p + 2 else p + 1)
    else Some(p + 1)
  }

  // The end of a set, whose next element is at p; a ']' here is an element.
  function SetEnd(pat: string, p: nat): (e: Option<nat>)
    requires p <= |pat|
    ensures e.Some? ==> p < e.value <= |pat|
    decreases |pat| - p
  {
    if p == |pat| then None
    else
      var q := if pat[p] == L_ESC && p + 1 < |pat| then p + 2 else p + 1;
      if At(pat, q) == ']' then Some(q + 1) else SetEnd(pat, q)
  }

  // Is c one of the elements between p and ec?
  predicate InElements(pat: string, c: char, p: nat, ec: nat)
    decreases ec - p
  {
    p < ec &&
    if At(pat, p) == L_ESC then MatchClass(c, At(pat, p + 1)) || InElements(pat, c, p + 2, ec)
    else if At(pat, p + 1) == '-' && p + 2 < ec then At(pat, p) <= c <= At(pat, p + 2) || InElements(pat, c, p + 3, ec)
    else At(pat, p) == c || InElements(pat, c, p + 1, ec)
  }

  predicate InSet(pat: string, c: char, p: nat, ec: nat) {
    if At(pat, p + 1) == '^' then !InElements(pat, c, p + 2, ec) else InElements(pat, c, p + 1, ec)
  }

  predicate SingleMatch(src: string, pat: string, s: nat, p: nat, ep: nat) {
    s < |src| &&
    if At(pat, p) == '.' then true
    else if At(pat, p) == L_ESC then MatchClass(src[s], At(pat, p + 1))
    else if At(pat, p) == '[' then ep > 0 && InSet(pat, src[s], p, ep - 1)
    else At(pat, p) == src[s]
  }

  // ------------------------------------------------------------------- balanced strings

  // How deep position i is, from a beginning at s.
  function Depth(src: string, s: nat, i: nat, b: char, e: char): int
    requires s < i
  {
    if i == s + 1 then 1
    else Depth(src, s, i - 1, b, e) + (if At(src, i - 1) == e then -1 else if At(src, i - 1) == b then 1 else 0)
  }

  // The text from s to r begins with b and is balanced: the depth first comes to zero at r.
  ghost predicate BalancedEnd(src: string, s: nat, b: char, e: char, r: nat) {
    s + 1 < r <= |src| && At(src, s) == b && Depth(src, s, r, b, e) == 0 && forall i :: s < i < r ==> Depth(src, s, i, b, e) > 0
  }

  // The end of the balanced text, looked for from position i on.
  function BalanceFrom(src: string, s: nat, i: nat, b: char, e: char): (r: Option<nat>)
    requires s < i
    ensures r.Some? ==> i < r.value <= |src| && Depth(src, s, r.value, b, e) == 0
    ensures forall j :: i < j && j <= |src| && (r.Some? ==> j < r.value) ==> Depth(src, s, j, b, e) != 0
    decreases |src| - i
  {
    if i >= |src| then None
    else if Depth(src, s, i + 1, b, e) == 0 then Some(i + 1)
    else BalanceFrom(src, s, i + 1, b, e)
  }

  function Balance(src: string, s: nat, b: char, e: char): (r: Option<nat>)
    ensures r.Some? ==> s < r.value <= |src|
  {
    if At(src, s) != b then None else BalanceFrom(src, s, s + 1, b, e)
  }

  lemma {:induction false} DepthPositive(src: string, s: nat, i: nat, r: nat, b: char, e: char)
    requires s < i <= r && forall j :: s + 1 < j < r ==> Depth(src, s, j, b, e) != 0
    ensures i < r ==> Depth(src, s, i, b, e) > 0
    decreases i
  {
    if s + 1 < i < r { DepthPositive(src, s, i - 1, r, b, e); }
  }

  lemma BalanceEnds(src: string, s: nat, b: char, e: char)
    ensures var r := Balance(src, s, b, e);
      && (r.Some? ==> BalancedEnd(src, s, b, e, r.value))
      && (r.None? ==> forall q :: !BalancedEnd(src, s, b, e, q))
  {
    var r := Balance(src, s, b, e);
    if r.Some? {
      forall i | s < i < r.value ensures Depth(src, s, i, b, e) > 0 { DepthPositive(src, s, i, r.value, b, e); }
    }
  }

  // ------------------------------------------------------------------------ the answers

  // The last capture that is still open.
  function ToClose(caps: seq<Capture>): (l: Option<nat>)
    ensures l.Some? ==> l.value < |caps| && caps[l.value].len.Unfinished?
  {
    if caps == [] then None
    else if caps[|caps| - 1].len.Unfinished? then Some(|caps| - 1)
    else ToClose(caps[..|caps| - 1])
  }

  // The text of capture l occurs at s; a position has no text.
  predicate Repeats(src: string, s: nat, c: Capture) {
    c.len.Len? && c.len.n >= 0 && s + c.len.n <= |src| && c.init + c.len.n <= |src| && src[c.init..c.init + c.len.n] == src[s..s + c.len.n]
  }

  function Closed(c: Capture, s: nat): Capture {
    Capture(c.init, Len(s - c.init))
  }

  // The capture that %0 to %9 refers to, if it is a closed one.
  function BackRef(caps: seq<Capture>, c: char): (l: Option<nat>)
    ensures l.Some? ==> l.value < |caps|
  {
    var l := c as int - '1' as int;
    if l < 0 || l >= |caps| || caps[l].len.Unfinished? then None else Some(l)
  }

  function Previous(src: string, s: nat): char {
    if s == 0 then '\0' else At(src, s - 1)
  }

  // Escapes that are not classes.
  predicate IsSpecial(pat: string, p: nat) {
    At(pat, p) == L_ESC && (At(pat, p + 1) == 'b' || At(pat, p + 1) == 'f' || IsDigit(At(pat, p + 1)))
  }

  ghost function Answers(src: string, pat: string, s: nat, p: nat, caps: seq<Capture>): seq<Answer>
    requires s <= |src| && p <= |pat|
    decreases |pat| - p, 3, 0
  {
    if p == |pat| then [Success(s, caps)]
    else if pat[p] == '(' then
      if |caps| >= MAXCAPTURES then [Error]
      else if At(pat, p + 1) == ')' then Answers(src, pat, s, p + 2, caps + [Capture(s, Position)])
      else Answers(src, pat, s, p + 1, caps + [Capture(s, Unfinished)])
    else if pat[p] == ')' then
      match ToClose(caps)
      case None => [Error]
      case Some(l) => Answers(src, pat, s, p + 1, caps[l := Closed(caps[l], s)])
    else if pat[p] == '$' && p + 1 == |pat| then (if s == |src| then [Success(s, caps)] else [])
    else if IsSpecial(pat, p) then Special(src, pat, s, p, caps)
    else
      match ClassEnd(pat, p)
      case None => [Error]
      case Some(ep) => Repeated(src, pat, s, p, ep, caps)
  }

  // %b, %f and back references.
  ghost function Special(src: string, pat: string, s: nat, p: nat, caps: seq<Capture>): seq<Answer>
    requires s <= |src| && p < |pat| && IsSpecial(pat, p)
    decreases |pat| - p, 2, 0
  {
    if At(pat, p + 1) == 'b' then
      if p + 3 >= |pat| then [Error]
      else
        match Balance(src, s, pat[p + 2], pat[p + 3])
        case None => []
        case Some(r) => Answers(src, pat, r, p + 4, caps)
    else if At(pat, p + 1) == 'f' then
      if At(pat, p + 2) != '[' then [Error]
      else
        match ClassEnd(pat, p + 2)
        case None => [Error]
        case Some(ep) =>
          if !InSet(pat, Previous(src, s), p + 2, ep - 1) && InSet(pat, At(src, s), p + 2, ep - 1) then Answers(src, pat, s, ep, caps) else []
    else
      match BackRef(caps, At(pat, p + 1))
      case None => [Error]
      case Some(l) => if Repeats(src, s, caps[l]) then Answers(src, pat, s + caps[l].len.n, p + 2, caps) else []
  }

  // A class with what follows it.
  ghost function Repeated(src: string, pat: string, s: nat, p: nat, ep: nat, caps: seq<Capture>): seq<Answer>
    requires s <= |src| && p < ep <= |pat|
    decreases |pat| - p, 2, 0
  {
    var once := SingleMatch(src, pat, s, p, ep);
    if At(pat, ep) == '?' then (if once then Answers(src, pat, s + 1, ep + 1, caps) else []) + Answers(src, pat, s, ep + 1, caps)
    else if At(pat, ep) == '*' then Greedy(src, pat, s, p, ep, caps)
    else if At(pat, ep) == '+' then (if once then Greedy(src, pat, s + 1, p, ep, caps) else [])
    else if At(pat, ep) == '-' then Lazy(src, pat, s, p, ep, caps)
    else if once then Answers(src, pat, s + 1, ep, caps)
    else []
  }

  // As many as possible first.
  ghost function Greedy(src: string, pat: string, s: nat, p: nat, ep: nat, caps: seq<Capture>): seq<Answer>
    requires s <= |src| && p < ep < |pat|
    decreases |pat| - p, 1, |src| - s
  {
    (if SingleMatch(src, pat, s, p, ep) then Greedy(src, pat, s + 1, p, ep, caps) else []) + Answers(src, pat, s, ep + 1, caps)
  }

  // As few as possible first.
  ghost function Lazy(src: string, pat: string, s: nat, p: nat, ep: nat, caps: seq<Capture>): seq<Answer>
    requires s <= |src| && p < ep < |pat|
    decreases |pat| - p, 1, |src| - s
  {
    Answers(src, pat, s, ep + 1, caps) + (if SingleMatch(src, pat, s, p, ep) then Lazy(src, pat, s + 1, p, ep, caps) else [])
  }

  // ------------------------------------------------------------ meaning of repetitions

  // The class matches n times from s on.
  ghost predicate Run(src: string, pat: string, s: nat, n: nat, p: nat, ep: nat) {
    forall i :: s <= i < s + n ==> SingleMatch(src, pat, i, p, ep)
  }

  // Nothing to repeat: the rest follows.
  lemma NotOnce(src: string, pat: string, s: nat, p: nat, ep: nat, caps: seq<Capture>)
    requires s <= |src| && p < ep < |pat| && !SingleMatch(src, pat, s, p, ep) && pat[ep] in {'*', '?', '-'}
    ensures Repeated(src, pat, s, p, ep, caps) == Answers(src, pat, s, ep + 1, caps)
  {
    var rest := Answers(src, pat, s, ep + 1, caps);
    hide Answers;
    assert [] + rest == rest && rest + [] == rest;
  }

  lemma {:induction false} GreedyHas(src: string, pat: string, s: nat, n: nat, p: nat, ep: nat, caps: seq<Capture>, a: Answer)
    requires s + n <= |src| && p < ep < |pat| && Run(src, pat, s, n, p, ep) && a in Answers(src, pat, s + n, ep + 1, caps)
    ensures a in Greedy(src, pat, s, p, ep, caps)
    decreases n
  {
    hide Answers, SingleMatch;
    if n > 0 {
      assert SingleMatch(src, pat, s, p, ep) && Run(src, pat, s + 1, n - 1, p, ep);
      GreedyHas(src, pat, s + 1, n - 1, p, ep, caps, a);
    }
  }

  lemma {:induction false} GreedyOnly(src: string, pat: string, s: nat, p: nat, ep: nat, caps: seq<Capture>, a: Answer) returns (n: nat)
    requires s <= |src| && p < ep < |pat| && a in Greedy(src, pat, s, p, ep, caps)
    ensures s + n <= |src| && Run(src, pat, s, n, p, ep) && a in Answers(src, pat, s + n, ep + 1, caps)
    decreases |src| - s
  {
    hide Answers, SingleMatch, Run;
    n := 0;
    RunNone(src, pat, s, p, ep);
    var rest := Answers(src, pat, s, ep + 1, caps);
    if a !in rest {
      NoMore(src, pat, s, p, ep);
      var m := GreedyOnly(src, pat, s + 1, p, ep, caps, a);
      n := m + 1;
      RunMore(src, pat, s, m, p, ep);
    }
  }

  lemma NoMore(src: string, pat: string, s: nat, p: nat, ep: nat)
    ensures SingleMatch(src, pat, s, p, ep) ==> s < |src|
  {}

  lemma RunNone(src: string, pat: string, s: nat, p: nat, ep: nat)
    ensures Run(src, pat, s, 0, p, ep)
  {}

  lemma RunMore(src: string, pat: string, s: nat, n: nat, p: nat, ep: nat)
    requires SingleMatch(src, pat, s, p, ep)
    ensures Run(src, pat, s + 1, n, p, ep) <==> Run(src, pat, s, n + 1, p, ep)
  {
    hide SingleMatch;
  }

  // The ways to match a repetition are those of what follows it after any number of
  // matches of the class.
  lemma GreedyIs(src: string, pat: string, s: nat, p: nat, ep: nat, caps: seq<Capture>, a: Answer)
    requires s <= |src| && p < ep < |pat|
    ensures a in Greedy(src, pat, s, p, ep, caps)
       <==> exists n: nat :: s + n <= |src| && Run(src, pat, s, n, p, ep) && a in Answers(src, pat, s + n, ep + 1, caps)
  {
    hide Answers, SingleMatch, Greedy;
    if a in Greedy(src, pat, s, p, ep, caps) {
      var n := GreedyOnly(src, pat, s, p, ep, caps, a);
    }
    if n: nat :| s + n <= |src| && Run(src, pat, s, n, p, ep) && a in Answers(src, pat, s + n, ep + 1, caps) {
      GreedyHas(src, pat, s, n, p, ep, caps, a);
    }
  }

  // Greedy and lazy repetitions match in the same ways, in another order.
  lemma {:induction false} LazyIs(src: string, pat: string, s: nat, p: nat, ep: nat, caps: seq<Capture>)
    requires s <= |src| && p < ep < |pat|
    ensures multiset(Lazy(src, pat, s, p, ep, caps)) == multiset(Greedy(src, pat, s, p, ep, caps))
    decreases |src| - s
  {
    hide Answers, InSet, MatchClass;
    var rest := Answers(src, pat, s, ep + 1, caps);
    if SingleMatch(src, pat, s, p, ep) {
      var lazy, greedy := Lazy(src, pat, s + 1, p, ep, caps), Greedy(src, pat, s + 1, p, ep, caps);
      assert Lazy(src, pat, s, p, ep, caps) == rest + lazy && Greedy(src, pat, s, p, ep, caps) == greedy + rest;
      LazyIs(src, pat, s + 1, p, ep, caps);
      SameElements(rest, lazy, greedy);
    } else {
      assert Lazy(src, pat, s, p, ep, caps) == rest + [] && Greedy(src, pat, s, p, ep, caps) == [] + rest;
      SameElements(rest, [], []);
    }
  }

  lemma SameElements(rest: seq<Answer>, xs: seq<Answer>, ys: seq<Answer>)
    requires multiset(xs) == multiset(ys)
    ensures multiset(rest + xs) == multiset(ys + rest)
  {}

  // The first answer of a greedy repetition has the most repetitions with which the rest
  // matches; that of a lazy one the fewest.
  lemma {:induction false} GreedyFirst(src: string, pat: string, s: nat, p: nat, ep: nat, caps: seq<Capture>) returns (n: nat)
    requires s <= |src| && p < ep < |pat| && Greedy(src, pat, s, p, ep, caps) != []
    ensures s + n <= |src| && Run(src, pat, s, n, p, ep) && Answers(src, pat, s + n, ep + 1, caps) != []
    ensures Greedy(src, pat, s, p, ep, caps)[0] == Answers(src, pat, s + n, ep + 1, caps)[0]
    ensures forall k: nat :: k > n && s + k <= |src| && Run(src, pat, s, k, p, ep) ==> Answers(src, pat, s + k, ep + 1, caps) == []
    decreases |src| - s
  {
    hide Answers, InSet, MatchClass;
    n := 0;
    if SingleMatch(src, pat, s, p, ep) && Greedy(src, pat, s + 1, p, ep, caps) != [] {
      var m := GreedyFirst(src, pat, s + 1, p, ep, caps);
      n := m + 1;
      forall k: nat | k > n && s + k <= |src| && Run(src, pat, s, k, p, ep) ensures Answers(src, pat, s + k, ep + 1, caps) == [] {
        assert Run(src, pat, s + 1, k - 1, p, ep) && s + 1 + (k - 1) == s + k;
      }
    } else {
      forall k: nat | k > n && s + k <= |src| && Run(src, pat, s, k, p, ep) ensures Answers(src, pat, s + k, ep + 1, caps) == [] {
        if Answers(src, pat, s + k, ep + 1, caps) != [] {
          GreedyHas(src, pat, s + 1, k - 1, p, ep, caps, Answers(src, pat, s + k, ep + 1, caps)[0]);
        }
      }
    }
  }

  ghost predicate Fails(src: string, pat: string, s: nat, ep: nat, caps: seq<Capture>)
    requires s <= |src| && ep < |pat|
  {
    Answers(src, pat, s, ep + 1, caps) == []
  }

  lemma {:induction false} LazyFirst(src: string, pat: string, s: nat, p: nat, ep: nat, caps: seq<Capture>) returns (n: nat)
    requires s <= |src| && p < ep < |pat| && Lazy(src, pat, s, p, ep, caps) != []
    ensures s + n <= |src| && Run(src, pat, s, n, p, ep) && Answers(src, pat, s + n, ep + 1, caps) != []
    ensures Lazy(src, pat, s, p, ep, caps)[0] == Answers(src, pat, s + n, ep + 1, caps)[0]
    ensures forall i :: s <= i < s + n ==> Fails(src, pat, i, ep, caps)
    decreases |src| - s
  {
    hide Answers, InSet, MatchClass;
    n := 0;
    if Answers(src, pat, s, ep + 1, caps) == [] {
      var m := LazyFirst(src, pat, s + 1, p, ep, caps);
      n := m + 1;
    }
  }

  // The answers of the rest after hi, hi - 1, ..., lo.
  ghost function Down(src: string, pat: string, lo: nat, hi: int, ep: nat, caps: seq<Capture>): seq<Answer>
    requires hi <= |src| && ep < |pat|
    decreases hi
  {
    if hi < lo then [] else Answers(src, pat, hi, ep + 1, caps) + Down(src, pat, lo, hi - 1, ep, caps)
  }

  lemma {:induction false} DownFirst(src: string, pat: string, lo: nat, hi: nat, ep: nat, caps: seq<Capture>)
    requires lo <= hi <= |src| && ep < |pat|
    ensures Down(src, pat, lo, hi, ep, caps) == Down(src, pat, lo + 1, hi, ep, caps) + Answers(src, pat, lo, ep + 1, caps)
    decreases hi
  {
    if hi > lo { DownFirst(src, pat, lo, hi - 1, ep, caps); }
  }

  // The greatest number of repetitions comes first.
  lemma {:induction false} GreedyDown(src: string, pat: string, s: nat, n: nat, p: nat, ep: nat, caps: seq<Capture>)
    requires s + n <= |src| && p < ep < |pat| && Run(src, pat, s, n, p, ep) && !SingleMatch(src, pat, s + n, p, ep)
    ensures Greedy(src, pat, s, p, ep, caps) == Down(src, pat, s, s + n, ep, caps)
    decreases n
  {
    if n > 0 {
      GreedyDown(src, pat, s + 1, n - 1, p, ep, caps);
      DownFirst(src, pat, s, s + n, ep, caps);
    } else {
      assert Down(src, pat, s, s - 1, ep, caps) == [];
    }
  }
}
