// How much of its limits a search uses up (lstrlib.c): the single characters that are
// matched on the way to the first answer, and how deep the search recurses.

module Efforts {
  import opened Common
  import opened Patterns

  // 'reps' characters count against the limit on repetitions; 'levels' calls are nested.
  datatype Effort = Effort(reps: nat, levels: nat)

  // A call that ends at once.
  const LEAST := Effort(0, 1)

  function Deeper(e: Effort): Effort {
    e.(levels := e.levels + 1)
  }

  function Once(e: Effort): Effort {
    e.(reps := e.reps + 1)
  }

  // One search after another.
  function Both(a: Effort, b: Effort): Effort {
    Effort(a.reps + b.reps, if a.levels > b.levels then a.levels else b.levels)
  }

  // The search at position s of the subject and p of the pattern, up to its first answer or
  // to its end.
  ghost function Need(src: string, pat: string, s: nat, p: nat, caps: seq<Capture>): (e: Effort)
    requires s <= |src| && p <= |pat|
    ensures 1 <= e.levels <= |pat| - p + 1
    decreases |pat| - p, 3, 0
  {
    if p == |pat| then LEAST
    else if pat[p] == '(' then
      if |caps| >= MAXCAPTURES then LEAST
      else if At(pat, p + 1) == ')' then Deeper(Need(src, pat, s, p + 2, caps + [Capture(s, Position)]))
      else Deeper(Need(src, pat, s, p + 1, caps + [Capture(s, Unfinished)]))
    else if pat[p] == ')' then
      match ToClose(caps)
      case None => LEAST
      case Some(l) => Deeper(Need(src, pat, s, p + 1, caps[l := Closed(caps[l], s)]))
    else if pat[p] == '$' && p + 1 == |pat| then LEAST
    else if IsSpecial(pat, p) then NeedSpecial(src, pat, s, p, caps)
    else
      match ClassEnd(pat, p)
      case None => LEAST
      case Some(ep) => NeedRepeated(src, pat, s, p, ep, caps)
  }

  ghost function NeedSpecial(src: string, pat: string, s: nat, p: nat, caps: seq<Capture>): (e: Effort)
    requires s <= |src| && p < |pat| && IsSpecial(pat, p)
    ensures 1 <= e.levels <= |pat| - p + 1
    decreases |pat| - p, 2, 0
  {
    if At(pat, p + 1) == 'b' then
      if p + 3 >= |pat| then LEAST
      else
        match Balance(src, s, pat[p + 2], pat[p + 3])
        case None => LEAST
        case Some(r) => Need(src, pat, r, p + 4, caps)
    else if At(pat, p + 1) == 'f' then
      if At(pat, p + 2) != '[' then LEAST
      else
        match ClassEnd(pat, p + 2)
        case None => LEAST
        case Some(ep) =>
          if !InSet(pat, Previous(src, s), p + 2, ep - 1) && InSet(pat, At(src, s), p + 2, ep - 1) then Need(src, pat, s, ep, caps) else LEAST
    else
      match BackRef(caps, At(pat, p + 1))
      case None => LEAST
      case Some(l) => if Repeats(src, s, caps[l]) then Need(src, pat, s + caps[l].len.n, p + 2, caps) else LEAST
  }

  // A class that matches counts once, however often it is repeated.
  ghost function NeedRepeated(src: string, pat: string, s: nat, p: nat, ep: nat, caps: seq<Capture>): (e: Effort)
    requires s <= |src| && p < ep <= |pat|
    ensures 1 <= e.levels <= |pat| - p + 1
    decreases |pat| - p, 2, 0
  {
    if !SingleMatch(src, pat, s, p, ep) then
      if At(pat, ep) in {'*', '?', '-'} then Need(src, pat, s, ep + 1, caps) else LEAST
    else if At(pat, ep) == '?' then
      var first := Deeper(Need(src, pat, s + 1, ep + 1, caps));
      Once(if Answers(src, pat, s + 1, ep + 1, caps) == [] then Both(first, Need(src, pat, s, ep + 1, caps)) else first)
    else if At(pat, ep) == '*' then Once(NeedGreedy(src, pat, s, p, ep, caps))
    else if At(pat, ep) == '+' then Once(NeedGreedy(src, pat, s + 1, p, ep, caps))
    else if At(pat, ep) == '-' then Once(NeedLazy(src, pat, s, p, ep, caps))
    else Once(Need(src, pat, s + 1, ep, caps))
  }

  // With one repetition less only when more have failed.
  ghost function NeedGreedy(src: string, pat: string, s: nat, p: nat, ep: nat, caps: seq<Capture>): (e: Effort)
    requires s <= |src| && p < ep < |pat|
    ensures 1 <= e.levels <= |pat| - p + 1
    decreases |pat| - p, 1, |src| - s
  {
    var rest := Deeper(Need(src, pat, s, ep + 1, caps));
    if !SingleMatch(src, pat, s, p, ep) then rest
    else
      var more := NeedGreedy(src, pat, s + 1, p, ep, caps);
      if Greedy(src, pat, s + 1, p, ep, caps) == [] then Both(more, rest) else more
  }

  // With one repetition more only when fewer have failed.
  ghost function NeedLazy(src: string, pat: string, s: nat, p: nat, ep: nat, caps: seq<Capture>): (e: Effort)
    requires s <= |src| && p < ep < |pat|
    ensures 1 <= e.levels <= |pat| - p + 1
    decreases |pat| - p, 1, |src| - s
  {
    var rest := Deeper(Need(src, pat, s, ep + 1, caps));
    if Answers(src, pat, s, ep + 1, caps) == [] && SingleMatch(src, pat, s, p, ep)
    then Both(rest, NeedLazy(src, pat, s + 1, p, ep, caps)) else rest
  }

  // At position s, and at those after it as long as there is no answer.
  ghost function NeedFrom(src: string, pat: string, s: nat, anchor: bool): (e: Effort)
    requires s <= |src|
    ensures 1 <= e.levels <= |pat| + 1
    decreases |src| - s
  {
    var here := Need(src, pat, s, 0, []);
    if Answers(src, pat, s, 0, []) == [] && !anchor && s < |src| then Both(here, NeedFrom(src, pat, s + 1, anchor)) else here
  }

  // ------------------------------------------------------------- the order of max_expand

  // What follows the repetition is tried after hi, hi - 1, ..., lo characters.
  ghost function NeedDown(src: string, pat: string, lo: nat, hi: nat, ep: nat, caps: seq<Capture>): (e: Effort)
    requires lo <= hi <= |src| && ep < |pat|
    ensures e.levels >= 1
    decreases hi
  {
    var here := Deeper(Need(src, pat, hi, ep + 1, caps));
    if Answers(src, pat, hi, ep + 1, caps) == [] && hi > lo then Both(here, NeedDown(src, pat, lo, hi - 1, ep, caps)) else here
  }

  lemma {:induction false} NeedDownFirst(src: string, pat: string, lo: nat, hi: nat, ep: nat, caps: seq<Capture>)
    requires lo < hi <= |src| && ep < |pat|
    ensures var more, rest := NeedDown(src, pat, lo + 1, hi, ep, caps), Deeper(Need(src, pat, lo, ep + 1, caps));
      NeedDown(src, pat, lo, hi, ep, caps) == if Down(src, pat, lo + 1, hi, ep, caps) == [] then Both(more, rest) else more
    decreases hi
  {
    hide Answers, Need;
    if hi > lo + 1 { NeedDownFirst(src, pat, lo, hi - 1, ep, caps); }
  }

  lemma {:induction false} NeedGreedyDown(src: string, pat: string, s: nat, n: nat, p: nat, ep: nat, caps: seq<Capture>)
    requires s + n <= |src| && p < ep < |pat| && Run(src, pat, s, n, p, ep) && !SingleMatch(src, pat, s + n, p, ep)
    ensures NeedGreedy(src, pat, s, p, ep, caps) == NeedDown(src, pat, s, s + n, ep, caps)
    decreases n
  {
    hide Answers, Need, InSet, MatchClass;
    if n > 0 {
      NeedGreedyDown(src, pat, s + 1, n - 1, p, ep, caps);
      NeedDownFirst(src, pat, s, s + n, ep, caps);
      GreedyDown(src, pat, s + 1, n - 1, p, ep, caps);
    }
  }
}
