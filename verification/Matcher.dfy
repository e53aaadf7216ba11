// The pattern matcher (lstrlib.c): backtracking over captures that are updated in place.

module Matcher {
  import opened Common
  import opened Patterns
  import opened Efforts

  const MAXCCALLS: nat := 200
  const A_REPS: nat := 4
  const B_REPS: nat := 100000
  const MAX_SIZET: nat := 0xffff_ffff  // of the 32-bit targets

  // How many characters may be matched, for a subject of length n.
  function RepLimit(n: nat): nat {
    if n < (MAX_SIZET - B_REPS) / A_REPS then A_REPS * n + B_REPS else MAX_SIZET
  }

  // The limits are too small for the search.
  predicate Exceeds(e: Effort, nrep: nat, depth: nat) {
    e.reps > nrep || e.levels > depth
  }

  datatype Found = End(e: nat) | NoMatch | Malformed | TooComplex

  // The search gives the first answer; NoMatch says that there is none.
  ghost predicate Gives(r: Found, caps: seq<Capture>, answers: seq<Answer>) {
    match r
    case End(e) => answers != [] && answers[0] == Success(e, caps)
    case NoMatch => answers == []
    case Malformed => answers != [] && answers[0] == Error
    case TooComplex => true
  }

  class MatchState {
    const src: string
    const pat: string
    var nrep: nat  // how many more characters may be matched
    var matchdepth: nat  // what is left of it
    var level: nat  // captures, open ones among them
    const capture: array<Capture>

    ghost predicate Valid()
      reads this
    {
      capture.Length == MAXCAPTURES && level <= MAXCAPTURES
    }

    ghost function Captures(): seq<Capture>
      reads this, capture
      requires Valid()
    {
      capture[..level]
    }

    // prepstate.
    constructor (src: string, pat: string)
      ensures Valid() && fresh(capture) && this.src == src && this.pat == pat && level == 0 && matchdepth == MAXCCALLS
      ensures nrep == RepLimit(|src|)
    {
      this.src, this.pat := src, pat;
      nrep := if |src| < (MAX_SIZET - B_REPS) / A_REPS then A_REPS * |src| + B_REPS else MAX_SIZET;
      level, matchdepth := 0, MAXCCALLS;
      capture := new Capture[MAXCAPTURES](i => Capture(0, Unfinished));
    }

    // ------------------------------------------------------------------ single characters

    // classend.
    method FindClassEnd(p0: nat) returns (r: Option<nat>)
      requires p0 < |pat|
      ensures r == ClassEnd(pat, p0)
    {
      var p := p0 + 1;
      if pat[p0] == L_ESC {
        if p == |pat| {
          return None;  // malformed pattern (ends with '%')
        }
        return Some(p + 1);
      } else if pat[p0] == '[' {
        if At(pat, p) == '^' {
          p := p + 1;
        }
        ghost var start := p;
        var more := true;
        while more
          invariant p <= |pat| && more ==> SetEnd(pat, p) == SetEnd(pat, start)
          invariant p <= |pat| && (!more ==> p < |pat| && SetEnd(pat, start) == Some(p + 1))
          decreases |pat| - p, more
        {
          if p == |pat| {
            return None;  // malformed pattern (missing ']')
          }
          p := p + 1;
          if pat[p - 1] == L_ESC && p < |pat| {
            p := p + 1;  // an escaped character does not end the class
          }
          more := At(pat, p) != ']';
        }
        return Some(p + 1);
      } else {
        return Some(p);
      }
    }

    // matchbracketclass.
    method MatchBracketClass(c: char, p0: nat, ec: nat) returns (b: bool)
      requires p0 < |pat|
      ensures b <==> InSet(pat, c, p0, ec)
    {
      var sig, p := true, p0;
      if At(pat, p + 1) == '^' {
        sig := false;
        p := p + 1;
      }
      p := p + 1;
      while p < ec
        invariant InSet(pat, c, p0, ec) <==> (InElements(pat, c, p, ec) == sig)
        decreases ec - p
      {
        if At(pat, p) == L_ESC {
          p := p + 1;
          if MatchClass(c, At(pat, p)) {
            return sig;
          }
        } else if At(pat, p + 1) == '-' && p + 2 < ec {
          p := p + 2;
          if At(pat, p - 2) <= c && c <= At(pat, p) {
            return sig;
          }
        } else if At(pat, p) == c {
          return sig;
        }
        p := p + 1;
      }
      return !sig;
    }

    // singlematch.
    method MatchOne(s: nat, p: nat, ep: nat) returns (b: bool)
      requires p < |pat| && ep > 0
      ensures b <==> SingleMatch(src, pat, s, p, ep)
    {
      if s >= |src| {
        return false;
      }
      var c := src[s];
      match pat[p] {
        case '.' => b := true;
        case '%' => b := MatchClass(c, At(pat, p + 1));
        case '[' => b := MatchBracketClass(c, p, ep - 1);
        case _ => b := pat[p] == c;
      }
    }

    // matchbalance, once its arguments are there.
    method MatchBalance(s0: nat, p: nat) returns (r: Option<nat>)
      requires s0 <= |src| && p + 1 < |pat|
      ensures r == Balance(src, s0, pat[p], pat[p + 1])
    {
      if At(src, s0) != pat[p] {
        return None;
      }
      var b, e := pat[p], pat[p + 1];
      var cont: int, s := 1, s0 + 1;
      while s < |src|
        invariant s > s0 && cont == Depth(src, s0, s, b, e)
        invariant BalanceFrom(src, s0, s, b, e) == BalanceFrom(src, s0, s0 + 1, b, e)
        decreases |src| - s
      {
        if src[s] == e {
          cont := cont - 1;
          if cont == 0 {
            return Some(s + 1);
          }
        } else if src[s] == b {
          cont := cont + 1;
        }
        assert Depth(src, s0, s + 1, b, e) == cont;
        s := s + 1;
      }
      return None;
    }

    // --------------------------------------------------------------------------- captures

    // check_capture.
    method CheckCapture(c: char) returns (l: Option<nat>)
      requires Valid()
      ensures l == BackRef(Captures(), c)
    {
      var i := c as int - '1' as int;
      if i < 0 || i >= level || capture[i].len.Unfinished? {
        return None;  // invalid capture index
      }
      l := Some(i);
    }

    // capture_to_close.
    method CaptureToClose() returns (l: Option<nat>)
      requires Valid()
      ensures l == ToClose(Captures())
    {
      var i := level;
      while i > 0
        invariant 0 <= i <= level && ToClose(capture[..i]) == ToClose(Captures())
      {
        i := i - 1;
        assert capture[..i + 1][..i] == capture[..i];
        if capture[i].len.Unfinished? {
          return Some(i);
        }
      }
      return None;  // invalid pattern capture
    }

    // A capture begins (start_capture).
    method StartCapture(s: nat, p: nat, what: CapLen) returns (r: Found)
      requires Valid() && s <= |src| && p <= |pat|
      modifies this, capture
      ensures Valid() && Kept(r) && WithinLimits(r, p)
      ensures Gives(r, Captures(), if old(level) >= MAXCAPTURES then [Error] else Answers(src, pat, s, p, old(Captures()) + [Capture(s, what)]))
      ensures Uses(r, if old(level) >= MAXCAPTURES then LEAST else Deeper(Need(src, pat, s, p, old(Captures()) + [Capture(s, what)])))
      decreases |pat| - p, 3
    {
      if level >= MAXCAPTURES {
        return Malformed;  // too many captures
      }
      ghost var caps := Captures();
      capture[level] := Capture(s, what);
      level := level + 1;
      assert Captures() == caps + [Capture(s, what)];
      r := Match(s, p);
      if r.NoMatch? {
        level := level - 1;  // it has not been one
        assert Captures() == (caps + [Capture(s, what)])[..|caps|];
      }
    }

    // ... and ends (end_capture).
    method EndCapture(s: nat, p: nat) returns (r: Found)
      requires Valid() && s <= |src| && p <= |pat|
      modifies this, capture
      ensures Valid() && Kept(r) && WithinLimits(r, p)
      ensures Gives(r, Captures(), match ToClose(old(Captures())) case None => [Error] case Some(l) =>
                                     Answers(src, pat, s, p, old(Captures())[l := Closed(old(Captures())[l], s)]))
      ensures Uses(r, match ToClose(old(Captures())) case None => LEAST case Some(l) =>
                        Deeper(Need(src, pat, s, p, old(Captures())[l := Closed(old(Captures())[l], s)])))
      decreases |pat| - p, 3
    {
      hide Answers, ToClose;
      ghost var caps := Captures();
      var l := CaptureToClose();
      if l.None? {
        return Malformed;
      }
      capture[l.value] := Closed(capture[l.value], s);
      assert Captures() == caps[l.value := Closed(caps[l.value], s)];
      r := Match(s, p);
      if r.NoMatch? {
        assert capture[l.value] == Captures()[l.value];
        capture[l.value] := Capture(capture[l.value].init, Unfinished);  // it has not been one
        assert Captures() == caps;
      }
    }

    // Unless the search succeeds or ends with an error, nothing has changed; the depth is
    // restored unless there is an error.
    twostate predicate Kept(r: Found)
      requires Valid() && old(Valid())
      reads this, capture
    {
      && (r.NoMatch? ==> Captures() == old(Captures()))
      && (r.NoMatch? || r.End? ==> matchdepth == old(matchdepth))
      && (r.End? ==> r.e <= |src|)
    }

    // A search is only given up as too complex when the limit on repetitions is used up, or
    // when the pattern has as many characters left as there are levels left.
    twostate predicate WithinLimits(r: Found, p: nat)
      reads this
    {
      r.TooComplex? ==> nrep == 0 || old(matchdepth) + p <= |pat|
    }

    // What a search has used, one level down: it is given up if and only if the limits are
    // too small for it.
    twostate predicate Uses(r: Found, e: Effort)
      reads this
    {
      && (r.TooComplex? <==> Exceeds(e, old(nrep), old(matchdepth) + 1))
      && (!r.TooComplex? ==> nrep + e.reps == old(nrep))
    }

    // ------------------------------------------------------------------------ repetitions

    // max_expand.
    method MaxExpand(s: nat, p: nat, ep: nat) returns (r: Found)
      requires Valid() && s <= |src| && p < ep < |pat|
      modifies this, capture
      ensures Valid() && Kept(r) && WithinLimits(r, p + 1)
      ensures Gives(r, Captures(), Greedy(src, pat, s, p, ep, old(Captures())))
      ensures Uses(r, NeedGreedy(src, pat, s, p, ep, old(Captures())))
      decreases |pat| - p, 0, 0, 0
    {
      hide Answers, Need, NeedGreedy, Greedy, InSet, MatchClass;
      ghost var caps := Captures();
      var i: int := 0;  // the most repetitions there are
      var b := MatchOne(s, p, ep);
      while b
        invariant 0 <= i <= |src| - s && Run(src, pat, s, i, p, ep) && (b <==> SingleMatch(src, pat, s + i, p, ep))
        decreases |src| - s - i
        modifies {}
      {
        i := i + 1;
        b := MatchOne(s + i, p, ep);
      }
      GreedyDown(src, pat, s, i, p, ep, caps);
      NeedGreedyDown(src, pat, s, i, p, ep, caps);
      ghost var need := NeedGreedy(src, pat, s, p, ep, caps);
      while i >= 0  // from the most repetitions down
        invariant -1 <= i <= |src| - s && Valid() && Captures() == caps && matchdepth == old(matchdepth)
        invariant Greedy(src, pat, s, p, ep, caps) == Down(src, pat, s, s + i, ep, caps)
        invariant i >= 0 ==> Goes(need, NeedDown(src, pat, s, s + i, ep, caps), old(nrep), nrep, matchdepth)
        invariant i < 0 ==> Ends(need, old(nrep), nrep, matchdepth)
        decreases i
      {
        r := Match(s + i, ep + 1);
        if !r.NoMatch? {
          return;
        }
        i := i - 1;
      }
      r := NoMatch;
    }

    // min_expand.
    method MinExpand(s0: nat, p: nat, ep: nat) returns (r: Found)
      requires Valid() && s0 <= |src| && p < ep < |pat|
      modifies this, capture
      ensures Valid() && Kept(r) && WithinLimits(r, p + 1)
      ensures Gives(r, Captures(), Lazy(src, pat, s0, p, ep, old(Captures())))
      ensures Uses(r, NeedLazy(src, pat, s0, p, ep, old(Captures())))
      decreases |pat| - p, 0, 0, 0
    {
      hide Answers, Need, InSet, MatchClass;
      ghost var caps := Captures();
      var s := s0;
      while true
        invariant s0 <= s <= |src| && Valid() && Captures() == caps && matchdepth == old(matchdepth)
        invariant Lazy(src, pat, s, p, ep, caps) == Lazy(src, pat, s0, p, ep, caps)
        invariant Goes(NeedLazy(src, pat, s0, p, ep, caps), NeedLazy(src, pat, s, p, ep, caps), old(nrep), nrep, matchdepth)
        decreases |src| - s
      {
        r := Match(s, ep + 1);
        if !r.NoMatch? {
          return;
        }
        var b := MatchOne(s, p, ep);
        if !b {
          return NoMatch;
        }
        s := s + 1;
      }
    }

    // ------------------------------------------------------------------------------ match

    // match: the first answer in the order of backtracking.
    method Match(s0: nat, p0: nat) returns (r: Found)
      requires Valid() && s0 <= |src| && p0 <= |pat|
      modifies this, capture
      ensures Valid() && Kept(r) && WithinLimits(r, p0)
      ensures Gives(r, Captures(), Answers(src, pat, s0, p0, old(Captures())))
      ensures r.TooComplex? <==> Exceeds(Need(src, pat, s0, p0, old(Captures())), old(nrep), old(matchdepth))
      ensures !r.TooComplex? ==> nrep + Need(src, pat, s0, p0, old(Captures())).reps == old(nrep)
      decreases |pat| - p0, 2
    {
      if matchdepth == 0 {
        return TooComplex;
      }
      matchdepth := matchdepth - 1;
      ghost var caps := Captures();
      var s, p := s0, p0;
      var next := Again(s, p);
      while next.Again?
        invariant Valid() && p0 <= p <= |pat| && 0 <= s <= |src|
        invariant next.Again? ==> next == Again(s, p) && Captures() == caps && matchdepth + 1 == old(matchdepth)
        invariant next.Again? ==> Answers(src, pat, s, p, caps) == Answers(src, pat, s0, p0, caps)
        invariant next.Again? ==> Goes(Need(src, pat, s0, p0, caps), Need(src, pat, s, p, caps), old(nrep), nrep, matchdepth)
        invariant next.Return? ==> UsedUp(next.r, Need(src, pat, s0, p0, caps), old(nrep), nrep, old(matchdepth))
        invariant next.Return? ==> Valid() && StepKept(next.r, caps, old(matchdepth)) && WithinLimits(next.r, p0)
        invariant next.Return? ==> Gives(next.r, Captures(), Answers(src, pat, s0, p0, caps))
        decreases next.Again?, |pat| - p
      {
        next := MatchStep(s, p);
        if next.Again? {
          s, p := next.s, next.p;
        }
      }
      r := next.r;
      if r.End? || r.NoMatch? {
        matchdepth := matchdepth + 1;
      }
    }

    // What a step ensures: it goes on at a later position of the pattern, or is done.
    twostate predicate Stepped(next: Next, s: nat, p: nat)
      requires Valid() && old(Valid()) && s <= |src| && p <= |pat|
      reads this, capture
    {
      match next
      case Again(s', p') =>
        && p < p' <= |pat| && s' <= |src| && Captures() == old(Captures()) && matchdepth == old(matchdepth)
        && Answers(src, pat, s', p', old(Captures())) == Answers(src, pat, s, p, old(Captures()))
        && Goes(Need(src, pat, s, p, old(Captures())), Need(src, pat, s', p', old(Captures())), old(nrep), nrep, matchdepth)
      case Return(r) =>
        && Kept(r) && WithinLimits(r, p + 1) && Gives(r, Captures(), Answers(src, pat, s, p, old(Captures())))
        && Uses(r, Need(src, pat, s, p, old(Captures())))
    }

    // The same after a class has matched once, which has been counted.
    twostate predicate Matched(next: Next, s: nat, p: nat, ep: nat)
      requires Valid() && old(Valid()) && s < |src| && p < ep <= |pat| && SingleMatch(src, pat, s, p, ep)
      reads this, capture
    {
      var e := NeedRepeated(src, pat, s, p, ep, old(Captures()));
      e.reps > 0 &&
      match next
      case Again(s', p') =>
        && p < p' <= |pat| && s' <= |src| && Captures() == old(Captures()) && matchdepth == old(matchdepth)
        && Answers(src, pat, s', p', old(Captures())) == Answers(src, pat, s, p, old(Captures()))
        && Goes(e.(reps := e.reps - 1), Need(src, pat, s', p', old(Captures())), old(nrep), nrep, matchdepth)
      case Return(r) =>
        && Kept(r) && WithinLimits(r, p + 1) && Gives(r, Captures(), Answers(src, pat, s, p, old(Captures())))
        && Uses(r, e.(reps := e.reps - 1))
    }

    method MatchStep(s: nat, p: nat) returns (next: Next)
      requires Valid() && s <= |src| && p <= |pat|
      modifies this, capture
      ensures Valid() && Stepped(next, s, p)
      decreases |pat| - p, 1
    {
      var r;
      if p == |pat| {
        return Return(End(s));
      }
      if pat[p] == '(' {
        if At(pat, p + 1) == ')' {
          r := StartCapture(s, p + 2, Position);
        } else {
          r := StartCapture(s, p + 1, Unfinished);
        }
        next := Return(r);
      } else if pat[p] == ')' {
        r := EndCapture(s, p + 1);
        next := Return(r);
      } else if pat[p] == '$' && p + 1 == |pat| {
        next := Return(if s == |src| then End(s) else NoMatch);
      } else if IsSpecial(pat, p) {
        next := MatchSpecial(s, p);
      } else {
        next := MatchDefault(s, p);
      }
    }

    // The escapes %b, %f and %0 to %9; any other one begins a class.
    method MatchSpecial(s: nat, p: nat) returns (next: Next)
      requires Valid() && s <= |src| && p < |pat| && IsSpecial(pat, p)
      ensures Stepped(next, s, p)
    {
      assert Answers(src, pat, s, p, Captures()) == Special(src, pat, s, p, Captures());
      assert Need(src, pat, s, p, Captures()) == NeedSpecial(src, pat, s, p, Captures());
      if At(pat, p + 1) == 'b' {
        if p + 3 >= |pat| {
          return Return(Malformed);  // missing arguments to '%b'
        }
        var e := MatchBalance(s, p + 2);
        next := if e.Some? then Again(e.value, p + 4) else Return(NoMatch);
      } else if At(pat, p + 1) == 'f' {  // frontier?
        if At(pat, p + 2) != '[' {
          return Return(Malformed);  // missing '[' after '%f'
        }
        var ep := FindClassEnd(p + 2);
        if ep.None? {
          return Return(Malformed);
        }
        var before := MatchBracketClass(Previous(src, s), p + 2, ep.value - 1);
        var after := MatchBracketClass(At(src, s), p + 2, ep.value - 1);
        next := if !before && after then Again(s, ep.value) else Return(NoMatch);
      } else {
        var l := CheckCapture(At(pat, p + 1));
        if l.None? {
          return Return(Malformed);
        }
        var c := capture[l.value];
        next := if Repeats(src, s, c) then Again(s + c.len.n, p + 2) else Return(NoMatch);
      }
    }

    // A class, perhaps with a suffix.
    method MatchDefault(s: nat, p: nat) returns (next: Next)
      requires Valid() && s <= |src| && p < |pat| && !IsSpecial(pat, p) && pat[p] != '(' && pat[p] != ')' && !(pat[p] == '$' && p + 1 == |pat|)
      modifies this, capture
      ensures Valid() && Stepped(next, s, p)
      decreases |pat| - p, 0, 1
    {
      var end := FindClassEnd(p);
      if end.None? {
        return Return(Malformed);
      }
      var ep := end.value;  // where a suffix would be
      assert Answers(src, pat, s, p, Captures()) == Repeated(src, pat, s, p, ep, Captures());
      assert Need(src, pat, s, p, Captures()) == NeedRepeated(src, pat, s, p, ep, Captures());
      var once := MatchOne(s, p, ep);
      if !once {
        if At(pat, ep) == '*' || At(pat, ep) == '?' || At(pat, ep) == '-' {
          NotOnce(src, pat, s, p, ep, Captures());
          next := Again(s, ep + 1);
        } else {
          next := Return(NoMatch);
        }
        return;
      }
      if nrep == 0 {
        return Return(TooComplex);
      }
      nrep := nrep - 1;
      next := MatchOnce(s, p, ep);
    }

    // Matched once: handle optional suffix.
    method MatchOnce(s: nat, p: nat, ep: nat) returns (next: Next)
      requires Valid() && s < |src| && p < ep <= |pat| && SingleMatch(src, pat, s, p, ep)
      requires Answers(src, pat, s, p, Captures()) == Repeated(src, pat, s, p, ep, Captures())
      modifies this, capture
      ensures Valid() && Matched(next, s, p, ep)
      decreases |pat| - p, 0, 0, 1
    {
      hide Answers, Need, InSet, MatchClass;
      ghost var caps := Captures();
      var r;
      match At(pat, ep) {
        case '?' =>  // optional
          r := Match(s + 1, ep + 1);
          next := if r.NoMatch? then Again(s, ep + 1) else Return(r);
          if r.NoMatch? {
            assert [] + Answers(src, pat, s, ep + 1, caps) == Answers(src, pat, s, ep + 1, caps);
          }
        case '+' =>  // 1 or more repetitions; 1 match already done
          r := MaxExpand(s + 1, p, ep);
          next := Return(r);
        case '*' =>
          r := MaxExpand(s, p, ep);
          next := Return(r);
        case '-' =>
          r := MinExpand(s, p, ep);
          next := Return(r);
        case _ =>
          next := Again(s + 1, ep);
      }
    }

    ghost predicate StepKept(r: Found, caps: seq<Capture>, depth: nat)
      requires Valid()
      reads this, capture
    {
      (r.NoMatch? ==> Captures() == caps) && (r.NoMatch? || r.End? ==> matchdepth + 1 == depth) && (r.End? ==> r.e <= |src|)
    }

    // The loop of str_find_aux: the leftmost position where the pattern matches.
    method FindFrom(init: nat, anchor: bool) returns (r: Found, start: nat)
      requires Valid() && init <= |src|
      modifies this, capture
      ensures Valid() && init <= start
      ensures !r.NoMatch? ==> start <= |src| && (anchor ==> start == init) && Gives(r, Captures(), Answers(src, pat, start, 0, []))
      ensures forall i :: init <= i <= |src| && i < start ==> Answers(src, pat, i, 0, []) == []
      ensures r.NoMatch? ==> start == if anchor then init + 1 else |src| + 1
      ensures WithinLimits(r, 0)
      ensures r.TooComplex? <==> Exceeds(NeedFrom(src, pat, init, anchor), old(nrep), old(matchdepth))
      ensures !r.TooComplex? ==> nrep + NeedFrom(src, pat, init, anchor).reps == old(nrep)
      // the depth alone is never too small for a short pattern
      ensures r.TooComplex? && |pat| < old(matchdepth) ==> NeedFrom(src, pat, init, anchor).reps > old(nrep)
    {
      hide Answers, Need;
      ghost var need := NeedFrom(src, pat, init, anchor);
      start := init;
      while start <= |src| && (start == init || !anchor)
        invariant Valid() && init <= start <= |src| + 1 && (anchor ==> start <= init + 1)
        invariant forall i :: init <= i < start ==> Answers(src, pat, i, 0, []) == []
        invariant matchdepth == old(matchdepth)
        invariant if start <= |src| && (start == init || !anchor) then Goes(need, NeedFrom(src, pat, start, anchor), old(nrep), nrep, matchdepth - 1)
                  else Ends(need, old(nrep), nrep, matchdepth - 1)
        decreases |src| + 1 - start
      {
        level := 0;
        r := Match(start, 0);
        if !r.NoMatch? {
          return;
        }
        start := start + 1;
      }
      r := NoMatch;
    }
  }

  // What the search needed from where it began, and what it still needs, at depth + 1
  // levels.
  ghost predicate Goes(e: Effort, rest: Effort, nrep0: nat, nrep: nat, depth: int) {
    e.reps - rest.reps == nrep0 - nrep && (e.levels > depth + 1 <==> rest.levels > depth + 1)
  }

  // It needs no more.
  ghost predicate Ends(e: Effort, nrep0: nat, nrep: nat, depth: int) {
    e.reps == nrep0 - nrep && e.levels <= depth + 1
  }

  ghost predicate UsedUp(r: Found, e: Effort, nrep0: nat, nrep: nat, depth: nat) {
    (r.TooComplex? <==> Exceeds(e, nrep0, depth)) && (!r.TooComplex? ==> nrep + e.reps == nrep0)
  }

  // After a step: a result, or a match at another position ('goto init').
  datatype Next = Again(s: nat, p: nat) | Return(r: Found)
}
