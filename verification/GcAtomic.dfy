// The atomic step: marking what the mutator may have touched, convergence, clearing
// of weak tables, separation of objects to be finalized, and the flip of whites.

module GcAtomic {
  import opened Common
  import opened GcHeap
  import opened GcInvariants
  import opened GcState
  import opened GcSteps
  import opened GcAtomicSteps
  import opened GcMark
  import opened GcConverge
  import opened GcClear

  // markvalue outside any traversal.
  method MarkRoot(g: GlobalState, v: Value)
    requires InB(g.bound, v) && MarkInv(g.View(), {})
    modifies g`color, g`gray, g`loc
    ensures Marking(old(g.View()), g.View()) && !In(Whites(g.color), v)
    ensures TurnsGray(old(g.View()), v) ==> g.View() == Grayed(old(g.View()), v.ref)
    ensures !(v.Obj? && IsWhite(old(g.color), v.ref)) ==> g.View() == old(g.View())
    ensures MarkInv(g.View(), {})
  {
    hide MarkInv, Marking;
    if v.Obj? && IsWhite(g.color, v.ref) {
      ChildBound(g.View(), {}, v.ref);
      g.ReallyMark(v.ref, {});
    } else {
      MarkingReflexive(g.View());
    }
  }

  // --------------------------------------------------------------- remarkupvals

  // The values of flagged open upvalues are within the bound: marking may follow them.
  ghost predicate UvsIn(h: Heap, u: Upvals, b: set<Ref>) {
    forall id :: id in u && u[id].Open? && u[id].touched ==> InB(b, UvValue(h, u, id))
  }

  lemma UvsInTrim(h: Heap, u: Upvals, h': Heap, u': Upvals, b: set<Ref>)
    requires HeapWF(h, u) && Trim(h, h') && SameUpvals(u, u') && UvsIn(h, u, b) && FlagsWithin(h', u, u', b)
    ensures UvsIn(h', u', b)
  {
    forall id | id in u' && u'[id].Open? && u'[id].touched ensures InB(b, UvValue(h', u', id)) {
      TrimUvValue(h, u, h', u', id);
    }
  }

  // Every thread but 'th' with a flagged upvalue is in the list.
  ghost predicate FlagsExcept(h: Heap, u: Upvals, twups: seq<Ref>, th: Ref, n: nat) {
    forall t :: t in h && h[t].Thread? && h[t].openupval != [] ==>
      t in twups || (if t == th then n <= |h[t].openupval| && Unflagged(u, h[t].openupval[..n]) else Unflagged(u, h[t].openupval))
  }

  lemma UvExists(s: St, th: Ref, i: nat)
    requires MarkInv(s, {}) && i < |OpenUpvals(s.heap, th)|
    ensures var id := OpenUpvals(s.heap, th)[i];
      id in s.upv && s.upv[id].Open? && !In(Missing(s.heap), UvValue(s.heap, s.upv, id))
  {
    assert OpenUpvals(s.heap, th)[i] in OpenUpvals(s.heap, th);
    assert ObjectWF(s.upv, th, s.heap[th]) && Clear(s.heap, s.upv, Missing(s.heap), s.heap[th]);
  }

  lemma FlagsNext(h: Heap, u: Upvals, u': Upvals, twups: seq<Ref>, th: Ref, n: nat)
    requires FlagsExcept(h, u, twups, th, n) && n < |OpenUpvals(h, th)|
    requires var id := OpenUpvals(h, th)[n];
      id in u && u[id].Open? && u' == (if u[id].touched then u[id := u[id].(touched := false)] else u)
    ensures FlagsExcept(h, u', twups, th, n + 1)
  {
    forall t | t in h && h[t].Thread? && h[t].openupval != [] && t !in twups
      ensures if t == th then n + 1 <= |h[t].openupval| && Unflagged(u', h[t].openupval[..n + 1]) else Unflagged(u', h[t].openupval)
    {
      if t == th {
        assert h[t].openupval[..n + 1] == h[t].openupval[..n] + [h[t].openupval[n]];
      }
    }
  }

  // One open upvalue of a thread that has left the list.
  method RemarkUpval(g: GlobalState, th: Ref, i: nat)
    requires g.inside && !g.remarked && UvsIn(g.heap, g.upv, g.bound) && i < |OpenUpvals(g.heap, th)|
    requires FlagsExcept(g.heap, g.upv, g.twups, th, i) && MarkInv(g.View(), {})
    modifies g`color, g`gray, g`loc, g`upv
    ensures UvsIn(g.heap, g.upv, g.bound)
    ensures FlagsExcept(g.heap, g.upv, g.twups, th, i + 1) && Progress(old(g.View()), g.View())
    ensures MarkInv(g.View(), {})
  {
    hide MarkInv, FlagsExcept, Marking, Progress;
    ghost var s0 := g.View();
    UvExists(s0, th, i);
    var id := g.heap[th].openupval[i];
    FlagsNext(g.heap, g.upv, if g.upv[id].touched then g.upv[id := g.upv[id].(touched := false)] else g.upv, g.twups, th, i);
    ProgressReflexive(s0);
    if g.upv[id].touched {
      MarkRoot(g, UvValue(g.heap, g.upv, id));
      MarkingKeeps(s0, g.View(), th);
      MarkingProgress(s0, g.View());
      UntouchInv(g.View(), id);
      UntouchProgress(s0, g.View(), id);
      g.upv := g.upv[id := g.upv[id].(touched := false)];
    }
  }

  lemma UntouchProgress(s0: St, s: St, id: UvId)
    requires Progress(s0, s) && id in s.upv && s.upv[id].Open? && !In(Whites(s.color), UvValue(s.heap, s.upv, id))
    ensures Progress(s0, s.(upv := s.upv[id := s.upv[id].(touched := false)]))
  {}

  method RemarkThread(g: GlobalState, th: Ref)
    requires g.inside && !g.remarked && UvsIn(g.heap, g.upv, g.bound)
    requires FlagsExcept(g.heap, g.upv, g.twups, th, 0) && MarkInv(g.View(), {})
    modifies g`color, g`gray, g`loc, g`upv
    ensures UvsIn(g.heap, g.upv, g.bound)
    ensures FlagsInTwups(g.heap, g.upv, g.twups) && Progress(old(g.View()), g.View())
    ensures MarkInv(g.View(), {})
  {
    hide MarkInv, FlagsExcept, Progress, UvsIn;
    ProgressReflexive(g.View());
    var ids := OpenUpvals(g.heap, th);
    for i := 0 to |ids|
      invariant FlagsExcept(g.heap, g.upv, g.twups, th, i) && Progress(old(g.View()), g.View())
      invariant UvsIn(g.heap, g.upv, g.bound)
      invariant MarkInv(g.View(), {})
    {
      ghost var s := g.View();
      RemarkUpval(g, th, i);
      ProgressTransitive(old(g.View()), s, g.View());
    }
    FlagsAll(g.heap, g.upv, g.twups, th);
  }

  lemma FlagsAll(h: Heap, u: Upvals, twups: seq<Ref>, th: Ref)
    requires FlagsExcept(h, u, twups, th, |OpenUpvals(h, th)|)
    ensures FlagsInTwups(h, u, twups)
  {
    if th in h && h[th].Thread? {
      assert h[th].openupval[..|h[th].openupval|] == h[th].openupval;
    }
  }

  // What the atomic step as a whole does to objects and colours. Only entries with a
  // key or a value in W are lost.
  ghost predicate Settling(s: St, s': St, W: iset<Ref>) {
    && Trim(s.heap, s'.heap) && SameUpvals(s.upv, s'.upv)
    && s'.color.Keys == s.color.Keys && Whites(s'.color) <= Whites(s.color)
    && s'.white == s.white && s'.fixed == s.fixed && s'.stuck == s.stuck && LosesOnly(s.heap, s'.heap, W)
    && (ModesKept(s) ==> ModesKept(s')) && Emptied(s.heap, s'.heap, Whites(s'.color)) && ListedKeeps(s, s')
    && FlagsServed(s'.heap, s.upv, s'.upv, Whites(s'.color))
  }

  lemma ProgressSettling(s: St, s': St)
    requires Progress(s, s')
    ensures Settling(s, s', Losable(s))
  {}

  lemma SettlingTransitive(s: St, s': St, s'': St, W: iset<Ref>, W': iset<Ref>)
    requires Settling(s, s', W') && Settling(s', s'', W) && W' <= W
    ensures Settling(s, s'', W)
  {
    TrimTransitive(s.heap, s'.heap, s''.heap);
    LosesMore(s.heap, s'.heap, W', W);
    LosesTransitive(s.heap, s'.heap, s''.heap, W, W);
    EmptiedTransitive(s.heap, s'.heap, s''.heap, Whites(s'.color), Whites(s''.color));
    ListedTransitive(s, s', s'');
    ServedTransitive(s'.heap, s''.heap, s.upv, s'.upv, s''.upv, Whites(s'.color), Whites(s''.color));
    hide Trim, LosesOnly, Emptied, ListedKeeps, FlagsServed;
  }

  lemma LosesMore(h: Heap, h': Heap, W: iset<Ref>, W': iset<Ref>)
    requires LosesOnly(h, h', W) && W <= W'
    ensures LosesOnly(h, h', W')
  {
    forall r | r in h && r in h' && h[r].Table? ensures TableLoses(h, W', h[r], h'[r]) {
      assert TableLoses(h, W, h[r], h'[r]);
    }
  }

  lemma ThreadNotBlack(s: St, th: Ref)
    requires MarkInv(s, {}) && th in s.twups
    ensures th in s.heap && s.heap[th].Thread? && th in s.color && !s.color[th].Black?
  {
    assert s.color[th].Black? ==> BlackOk(s.heap, s.upv, Whites(s.color), Rule(s), s.loc, {}, s.heap[th]);
  }

  // The first n threads of the list are marked and have open upvalues.
  ghost predicate KeptTo(s: St, n: nat) {
    forall i :: 0 <= i < |s.twups| && i < n ==> !IsWhite(s.color, s.twups[i])
  }

  lemma KeptMore(s: St, s': St, n: nat)
    requires KeptTo(s, n) && Whites(s'.color) <= Whites(s.color) && s'.color.Keys == s.color.Keys && s'.twups == s.twups
    ensures KeptTo(s', n)
  {
    forall i | 0 <= i < |s'.twups| && i < n ensures !IsWhite(s'.color, s'.twups[i]) {
      StaysMarked(s.color, s'.color, s.twups[i]);
    }
  }

  lemma StaysMarked(c: Colors, c': Colors, r: Ref)
    requires Whites(c') <= Whites(c) && !IsWhite(c, r)
    ensures !IsWhite(c', r)
  {
    assert r in Whites(c') <==> IsWhite(c', r);
  }

  // A thread that is not marked, or has no upvalues, leaves the list.
  method UnlistThread(g: GlobalState, p: nat)
    requires !g.clearing && g.inside && !g.remarked && UvsIn(g.heap, g.upv, g.bound) && p < |g.twups| && KeptTo(g.View(), p)
    requires IsWhite(g.color, g.twups[p]) || OpenUpvals(g.heap, g.twups[p]) == []
    requires FlagsInTwups(g.heap, g.upv, g.twups) && MarkInv(g.View(), {})
    modifies g`color, g`gray, g`loc, g`upv, g`twups
    ensures |g.twups| == old(|g.twups|) - 1 && KeptTo(g.View(), p) && UvsIn(g.heap, g.upv, g.bound)
    ensures FlagsInTwups(g.heap, g.upv, g.twups) && Settling(old(g.View()), g.View(), iset{})
    ensures MarkInv(g.View(), {})
  {
    hide MarkInv, Progress, Settling, KeptTo, UvsIn;
    ghost var s0 := g.View();
    var thread := g.twups[p];
    UnlistInv(g.View(), p);
    g.twups := g.twups[..p] + g.twups[p + 1..];
    assert FlagsExcept(g.heap, g.upv, g.twups, thread, 0);
    ghost var s1 := g.View();
    UnlistKeeps(s0, s1, p);
    hide FlagsInTwups, FlagsExcept;
    RemarkThread(g, thread);
    ProgressSettling(s1, g.View());
    ProgressWhites(s1, g.View());
    SettlingTransitive(s0, s1, g.View(), iset{}, iset{});
    KeptMore(s1, g.View(), p);
  }

  lemma UnlistKeeps(s: St, s': St, p: nat)
    requires KeptTo(s, p) && p < |s.twups| && s' == s.(twups := s.twups[..p] + s.twups[p + 1..])
    ensures KeptTo(s', p) && Settling(s, s', iset{})
  {
    TrimReflexive(s.heap);
  }

  // Marks the values of flagged upvalues of threads that were not marked; removes
  // these threads from the list, and those that have no open upvalue.
  method RemarkUpvals(g: GlobalState)
    requires !g.clearing && g.gcstate == InsideAtomic && g.inside && !g.remarked && UvsIn(g.heap, g.upv, g.bound)
    requires FlagsInTwups(g.heap, g.upv, g.twups) && MarkInv(g.View(), {})
    modifies g`color, g`gray, g`loc, g`upv, g`twups, g`remarked
    ensures g.remarked && Settling(old(g.View()), g.View(), iset{}) && FlagsMarked(old(g.upv), g.View())
    ensures MarkInv(g.View(), {})
  {
    hide MarkInv, Settling, FlagsInTwups, KeptTo, UvsIn, FlagsMarked;
    SettlingReflexive(g.View());
    var p := 0;
    assert KeptTo(g.View(), 0) by { KeptStart(g.View()); }
    while p < |g.twups|
      invariant p <= |g.twups| && g.inside && !g.remarked && UvsIn(g.heap, g.upv, g.bound) && KeptTo(g.View(), p)
      invariant FlagsInTwups(g.heap, g.upv, g.twups) && Settling(old(g.View()), g.View(), iset{})
      invariant MarkInv(g.View(), {})
      decreases |g.twups| - p
    {
      ghost var s := g.View();
      var thread := g.twups[p];
      ThreadNotBlack(s, thread);
      if g.color[thread].Gray? && g.heap[thread].openupval != [] {
        KeptNext(s, p);
        p := p + 1;  // this one stays
      } else {
        UnlistThread(g, p);
        SettlingTransitive(old(g.View()), s, g.View(), iset{}, iset{});
      }
    }
    KeptAll(g.View());
    RemarkedInv(g.View());
    SettlingRemarked(old(g.View()), g.View());
    FlagsRemarked(old(g.View()), g.View());
    g.remarked := true;
  }

  // The upvalues that were flagged in u have marked values, or are those of marked threads.
  ghost predicate FlagsMarked(u: Upvals, s: St) {
    forall id :: id in u && u[id].Open? && u[id].touched ==>
      !In(Whites(s.color), UvValue(s.heap, s.upv, id)) || (id in s.upv && s.upv[id].Open? && !IsWhite(s.color, s.upv[id].thread))
  }

  lemma FlagsRemarked(s0: St, s: St)
    requires Settling(s0, s, iset{}) && MarkInv(s, {}) && FlagsInTwups(s.heap, s.upv, s.twups)
    requires forall th :: th in s.twups ==> !IsWhite(s.color, th)
    ensures FlagsMarked(s0.upv, s.(remarked := true))
  {
    forall id | id in s.upv && s.upv[id].Open? && s.upv[id].touched ensures !IsWhite(s.color, s.upv[id].thread) {
      assert UvWF(s.heap, id, s.upv[id]);
    }
    hide MarkInv;
  }

  lemma FlagsMarkedKept(u: Upvals, s: St, s': St)
    requires FlagsMarked(u, s) && Settling(s, s', iset{})
    ensures FlagsMarked(u, s')
  {
    forall id | id in u && u[id].Open? && u[id].touched
      ensures !In(Whites(s'.color), UvValue(s'.heap, s'.upv, id)) || (id in s'.upv && s'.upv[id].Open? && !IsWhite(s'.color, s'.upv[id].thread))
    {
      if id in s.upv && s.upv[id].Open? {
        var th := s.upv[id].thread;
        if th in s.heap { assert ObjTrim(s.heap[th], s'.heap[th]); }
        if !IsWhite(s.color, th) { StaysMarked(s.color, s'.color, th); }
      }
    }
  }

  lemma SettlingReflexive(s: St)
    ensures Settling(s, s, iset{})
  {
    TrimReflexive(s.heap);
  }

  lemma SettlingRemarked(s: St, s': St)
    requires Settling(s, s', iset{})
    ensures Settling(s, s'.(remarked := true), iset{})
  {}

  lemma KeptStart(s: St)
    ensures KeptTo(s, 0)
  {}

  lemma KeptNext(s: St, n: nat)
    requires KeptTo(s, n) && n < |s.twups| && !IsWhite(s.color, s.twups[n])
    ensures KeptTo(s, n + 1)
  {}

  lemma KeptAll(s: St)
    requires KeptTo(s, |s.twups|)
    ensures forall th :: th in s.twups ==> !IsWhite(s.color, th)
  {}

  // ------------------------------------------------------------------------ roots

  ghost predicate NoneOf(bad: iset<Ref>, rs: seq<Ref>) {
    forall i :: 0 <= i < |rs| ==> rs[i] !in bad
  }

  // The roots, but for the main thread and the objects being finalized.
  ghost predicate RootsClear(bad: iset<Ref>, running: Ref, registry: Value, mt: seq<Option<Ref>>) {
    running !in bad && !In(bad, registry) && NoOptIn(bad, mt)
  }

  // The roots are within the bound.
  ghost predicate RootsIn(b: set<Ref>, running: Ref, registry: Value, mt: seq<Option<Ref>>) {
    running in b && InB(b, registry) && forall i :: 0 <= i < |mt| ==> OptInB(b, mt[i])
  }

  ghost predicate NoMetatables(mt: seq<Option<Ref>>) {
    forall i :: 0 <= i < |mt| ==> mt[i].None?
  }

  // Marks the metatables of basic types.
  method MarkMt(g: GlobalState)
    requires (forall i :: 0 <= i < |g.mt| ==> OptInB(g.bound, g.mt[i])) && MarkInv(g.View(), {})
    modifies g`color, g`gray, g`loc
    ensures Marking(old(g.View()), g.View()) && NoOptIn(Whites(g.color), g.mt)
    ensures NoMetatables(g.mt) ==> g.View() == old(g.View())
    ensures MarkInv(g.View(), {})
  {
    hide MarkInv, Marking;
    MarkingReflexive(g.View());
    for i := 0 to |g.mt|
      invariant NoMetatables(g.mt) ==> g.View() == old(g.View())
      invariant Marking(old(g.View()), g.View()) && NoOptIn(Whites(g.color), g.mt[..i])
      invariant MarkInv(g.View(), {})
    {
      ghost var s := g.View();
      MarkRoot(g, if g.mt[i].Some? then Obj(g.mt[i].value) else Nil);
      MarkingTransitive(old(g.View()), s, g.View());
      MarkingKeeps(s, g.View(), g.running);
      assert g.mt[..i + 1] == g.mt[..i] + [g.mt[i]];
    }
    assert g.mt[..|g.mt|] == g.mt;
  }

  // The roots that may change while marking is going on: they are marked again.
  method MarkAgain(g: GlobalState)
    requires RootsIn(g.bound, g.running, g.registry, g.mt) && MarkInv(g.View(), {})
    modifies g`color, g`gray, g`loc
    ensures Marking(old(g.View()), g.View()) && RootsClear(Whites(g.color), g.running, g.registry, g.mt)
    ensures MarkInv(g.View(), {})
  {
    hide MarkInv, Marking;
    ghost var s0 := g.View();
    MarkRoot(g, Obj(g.running));
    ghost var s1 := g.View();
    MarkRoot(g, g.registry);
    ghost var s2 := g.View();
    MarkingTransitive(s0, s1, s2);
    MarkingKeeps(s1, s2, g.running);
    MarkMt(g);
    MarkingTransitive(s0, s2, g.View());
    MarkingKeeps(s2, g.View(), g.running);
  }

  ghost predicate AllIn(rs: seq<Ref>, b: set<Ref>) {
    forall i :: 0 <= i < |rs| ==> rs[i] in b
  }

  // Marks all objects being finalized.
  method MarkBeingFnz(g: GlobalState)
    requires AllIn(g.tobefnz, g.bound) && MarkInv(g.View(), {})
    modifies g`color, g`gray, g`loc
    ensures Marking(old(g.View()), g.View()) && NoneOf(Whites(g.color), g.tobefnz)
    ensures g.tobefnz == [] ==> g.View() == old(g.View())
    ensures MarkInv(g.View(), {})
  {
    hide MarkInv, Marking;
    MarkingReflexive(g.View());
    for i := 0 to |g.tobefnz|
      invariant i == 0 ==> g.View() == old(g.View())
      invariant Marking(old(g.View()), g.View()) && NoneOf(Whites(g.color), g.tobefnz[..i])
      invariant MarkInv(g.View(), {})
    {
      ghost var s := g.View();
      MarkRoot(g, Obj(g.tobefnz[i]));
      MarkingTransitive(old(g.View()), s, g.View());
      MarkingKeeps(s, g.View(), g.tobefnz[i]);
      assert g.tobefnz[..i + 1] == g.tobefnz[..i] + [g.tobefnz[i]];
    }
    assert g.tobefnz[..|g.tobefnz|] == g.tobefnz;
  }

  // The white objects of a list, or the others, in order.
  function Select(c: Colors, rs: seq<Ref>, white: bool): seq<Ref> {
    if rs == [] then []
    else Select(c, rs[..|rs| - 1], white) + (if IsWhite(c, rs[|rs| - 1]) == white then [rs[|rs| - 1]] else [])
  }

  // Separating loses and duplicates nothing.
  lemma {:induction false} SelectSplits(c: Colors, rs: seq<Ref>)
    ensures multiset(Select(c, rs, true)) + multiset(Select(c, rs, false)) == multiset(rs)
  {
    if rs != [] {
      var init, last := rs[..|rs| - 1], rs[|rs| - 1];
      SelectSplits(c, init);
      assert rs == init + [last];
      assert multiset(rs) == multiset(init) + multiset{last};
    }
  }

  lemma {:induction false} SelectMembers(c: Colors, rs: seq<Ref>, white: bool)
    ensures forall r :: r in Select(c, rs, white) <==> r in rs && IsWhite(c, r) == white
  {
    if rs != [] {
      SelectMembers(c, rs[..|rs| - 1], white);
      assert rs == rs[..|rs| - 1] + [rs[|rs| - 1]];
    }
  }

  // Moves the unmarked objects that have finalizers to the end of 'tobefnz'.
  method SeparateToBeFnz(g: GlobalState)
    modifies g`finobj, g`tobefnz
    ensures g.finobj == Select(g.color, old(g.finobj), false)
    ensures g.tobefnz == old(g.tobefnz) + Select(g.color, old(g.finobj), true)
  {
    ghost var rs := g.finobj;
    ghost var k := 0;
    var p := 0;
    assert rs[..0] == [];
    while p < |g.finobj|
      invariant k <= |rs| && p <= |g.finobj|
      invariant g.finobj[..p] == Select(g.color, rs[..k], false) && g.finobj[p..] == rs[k..]
      invariant g.tobefnz == old(g.tobefnz) + Select(g.color, rs[..k], true)
      decreases |g.finobj| - p
    {
      var curr := g.finobj[p];
      assert curr == g.finobj[p..][0] == rs[k];
      assert rs[..k + 1][..|rs[..k + 1]| - 1] == rs[..k];
      assert rs[k + 1..] == rs[k..][1..] == g.finobj[p + 1..];
      k := k + 1;
      if !IsWhite(g.color, curr) {
        assert g.finobj[..p + 1] == g.finobj[..p] + [curr];
        p := p + 1;
      } else {
        g.finobj := g.finobj[..p] + g.finobj[p + 1..];
        g.tobefnz := g.tobefnz + [curr];
      }
    }
    assert rs[..k] == rs && g.finobj[..p] == g.finobj;
  }

  // --------------------------------------------------------------- the atomic step

  ghost predicate AllInTwups(h: Heap, twups: seq<Ref>) {
    forall th :: th in h && h[th].Thread? && h[th].openupval != [] ==> th in twups
  }

  // Marks the roots again, and what flagged upvalues of unmarked threads hold.
  method RemarkRoots(g: GlobalState)
    requires !g.clearing && g.gcstate == InsideAtomic && g.inside && !g.remarked
    requires RootsIn(g.bound, g.running, g.registry, g.mt) && UvsIn(g.heap, g.upv, g.bound)
    requires AllInTwups(g.heap, g.twups) && MarkInv(g.View(), {})
    modifies g`upv, g`color, g`gray, g`loc, g`twups, g`remarked
    ensures g.remarked && RootsClear(Whites(g.color), g.running, g.registry, g.mt)
    ensures Settling(old(g.View()), g.View(), iset{}) && FlagsMarked(old(g.upv), g.View())
    ensures MarkInv(g.View(), {})
  {
    hide MarkInv, Marking, Progress, Settling, FlagsInTwups, RootsClear, RootsIn, UvsIn, FlagsMarked;
    ghost var s0 := g.View();
    MarkAgain(g);
    ghost var s1 := g.View();
    MarkingProgress(s0, s1);
    ProgressSettling(s0, s1);
    AllFlagsIn(g.heap, g.upv, g.twups);
    RemarkUpvals(g);
    SettlingTransitive(s0, s1, g.View(), iset{}, iset{});
    SettlingKeeps(s1, g.View(), iset{}, g.running, g.registry, g.mt);
  }

  // Marks everything that is reachable without going through a weak reference.
  method MarkStrong(g: GlobalState)
    requires !g.clearing && g.gcstate == InsideAtomic && g.inside && !g.remarked && g.gray == [] && g.work == [] && g.again == g.grayagain
    requires RootsIn(g.bound, g.running, g.registry, g.mt) && UvsIn(g.heap, g.upv, g.bound)
    requires AllInTwups(g.heap, g.twups) && MarkInv(g.View(), {})
    modifies g`heap, g`upv, g`color, g`gray, g`loc, g`grayagain, g`again, g`weak, g`ephemeron, g`allweak, g`twups, g`work, g`bound, g`remarked
    ensures g.TraversalPhase() && g.gray == [] && g.again == [] && g.work == [] && g.bound == old(g.bound)
    ensures RootsClear(Whites(g.color), g.running, g.registry, g.mt)
    ensures NothingPending(g.View()) && Settling(old(g.View()), g.View(), iset{}) && FlagsMarked(old(g.upv), g.View())
    ensures ModesKept(old(g.View())) ==> StrongClosed(g.heap, g.upv, g.stuck, Marked(g.color))
    ensures MarkInv(g.View(), {})
  {
    hide MarkInv, Progress, Settling, AllEphClosed, RootsClear, RootsIn, UvsIn, ModesKept, StrongClosed, OnlyForced, FlagsMarked;
    ghost var s0 := g.View();
    var saved := g.grayagain;
    RemarkRoots(g);
    ghost var s1 := g.View();
    PropagateSaved(g, saved);
    ghost var s2 := g.View();
    SettlingTransitive(s0, s1, s2, iset{}, iset{});
    SettlingKeeps(s1, s2, iset{}, g.running, g.registry, g.mt);
    FlagsMarkedKept(s0.upv, s1, s2);
    ConvergeEphemerons(g);
    ProgressAgain(s2, g.View());
    ProgressSettling(s2, g.View());
    SettlingTransitive(s0, s2, g.View(), iset{}, iset{});
    SettlingKeeps(s2, g.View(), iset{}, g.running, g.registry, g.mt);
    ConvergedSettling(s2, g.View());
    FlagsMarkedKept(s0.upv, s2, g.View());
    if ModesKept(s0) {
      SettlingModes(s0, g.View());
      MarkedClosed(g.View());
    }
  }

  // The gray list, then the objects of the saved 'grayagain' list.
  method PropagateSaved(g: GlobalState, saved: seq<Ref>)
    requires !g.clearing && saved == g.again && g.TraversalPhase() && g.gcstate == InsideAtomic && g.work == [] && MarkInv(g.View(), {})
    modifies g`heap, g`upv, g`color, g`gray, g`loc, g`grayagain, g`again, g`weak, g`ephemeron, g`allweak, g`twups, g`work
    ensures g.TraversalPhase() && g.gray == [] && g.again == [] && g.work == [] && g.bound == old(g.bound)
    ensures g.heap.Keys == old(g.heap.Keys) && Settling(old(g.View()), g.View(), iset{})
    ensures MarkInv(g.View(), {})
  {
    hide MarkInv, Progress, Settling;
    ghost var s0 := g.View();
    g.PropagateAll();
    ghost var s1 := g.View();
    ProgressAgain(s0, s1);
    ProgressWhites(s0, s1);
    ProgressSettling(s0, s1);
    AgainToGrayInv(s1);
    g.gray, g.again := saved, [];
    g.loc := Relabel(g.loc, AgainL, GrayL);
    ghost var s2 := g.View();
    assert s2 == AgainToGray(s1);
    SettlingSame(s1, s2);
    SettlingTransitive(s0, s1, s2, iset{}, iset{});
    g.PropagateAll();
    ProgressAgain(s2, g.View());
    ProgressWhites(s2, g.View());
    ProgressSettling(s2, g.View());
    SettlingTransitive(s0, s2, g.View(), iset{}, iset{});
  }

  lemma SettlingModes(s: St, s': St)
    requires Settling(s, s', iset{}) && ModesKept(s)
    ensures ModesKept(s')
  {}

  lemma ProgressAgain(s: St, s': St)
    requires Progress(s, s') && s.remarked
    ensures s'.again == s.again && s'.remarked && s'.inside == s.inside && s'.clearing == s.clearing
  {}

  lemma SettlingSame(s: St, s': St)
    requires s' == s.(gray := s'.gray, again := s'.again, loc := s'.loc)
    requires forall r :: r in s'.loc && s'.loc[r] == AllWeakL ==> r in s.loc && s.loc[r] == AllWeakL
    ensures Settling(s, s', iset{})
  {
    TrimReflexive(s.heap);
  }

  lemma SettlingKeeps(s: St, s': St, W: iset<Ref>, r: Ref, v: Value, os: seq<Option<Ref>>)
    requires Settling(s, s', W) && RootsClear(Whites(s.color), r, v, os)
    ensures RootsClear(Whites(s'.color), r, v, os)
  {}

  lemma AllFlagsIn(h: Heap, u: Upvals, twups: seq<Ref>)
    requires AllInTwups(h, twups)
    ensures FlagsInTwups(h, u, twups)
  {}

  lemma ClearingSettling(s: St, s': St)
    requires Clearing(s, s')
    ensures Settling(s, s', Whites(s.color)) && s.bound <= s'.bound
  {
    var s1 := s.(bound := s'.bound);
    assert Clearing(s1, s');
    ClearingProgress(s1, s');
    ProgressSettling(s1, s');
    WhitesLosable(s, s1);
    hide Trim, LosesOnly, Emptied, Clearing, Progress, SameUpvals;
  }

  // Objects with finalizers that are not marked are to be finalized: they and what
  // they lead to are marked after all.
  method Resurrect(g: GlobalState)
    requires g.TraversalPhase() && g.gcstate == InsideAtomic && g.gray == [] && g.again == [] && g.work == []
    requires AllIn(g.finobj, g.bound) && AllIn(g.tobefnz, g.bound)
    requires MarkInv(g.View(), {})
    modifies g`heap, g`upv, g`color, g`gray, g`loc, g`grayagain, g`again, g`weak, g`ephemeron, g`allweak, g`twups, g`work, g`bound, g`finobj, g`tobefnz
    ensures g.TraversalPhase() && g.gray == [] && g.again == [] && g.work == [] && g.bound == old(g.bound)
    ensures g.finobj == Select(old(g.color), old(g.finobj), false)
    ensures g.tobefnz == old(g.tobefnz) + Select(old(g.color), old(g.finobj), true)
    ensures NoneOf(Whites(g.color), g.tobefnz)
    ensures AllEphClosed(g.View()) && Progress(old(g.View()), g.View())
    ensures MarkInv(g.View(), {})
  {
    hide MarkInv, Marking, Progress, AllEphClosed, AllIn, OnlyForced;
    ghost var s0 := g.View();
    SeparatedIn(g.color, g.bound, g.finobj, g.tobefnz);
    SeparateToBeFnz(g);
    MarkBeingFnz(g);
    ghost var s1 := g.View();
    MarkingProgress(s0, s1);
    PropagateConverge(g);
    ProgressTransitive(s0, s1, g.View());
    ProgressWhites(s1, g.View());
  }

  // Everything that the gray objects lead to is marked.
  method PropagateConverge(g: GlobalState)
    requires g.TraversalPhase() && g.gcstate == InsideAtomic && g.again == [] && g.work == [] && MarkInv(g.View(), {})
    modifies g`heap, g`upv, g`color, g`gray, g`loc, g`grayagain, g`again, g`weak, g`ephemeron, g`allweak, g`twups, g`work, g`bound
    ensures g.TraversalPhase() && g.gray == [] && g.again == [] && g.work == [] && g.bound == old(g.bound)
    ensures AllEphClosed(g.View()) && Progress(old(g.View()), g.View())
    ensures MarkInv(g.View(), {})
  {
    hide MarkInv, Progress, AllEphClosed, OnlyForced;
    ghost var s1 := g.View();
    g.PropagateAll();
    ghost var s2 := g.View();
    ProgressWhites(s1, s2);
    ProgressAgain(s1, s2);
    ConvergeEphemerons(g);
    ProgressTransitive(s1, s2, g.View());
    ProgressWhites(s2, g.View());
    ProgressAgain(s2, g.View());
  }

  lemma SeparatedIn(c: Colors, b: set<Ref>, finobj: seq<Ref>, tobefnz: seq<Ref>)
    requires AllIn(finobj, b) && AllIn(tobefnz, b)
    ensures AllIn(tobefnz + Select(c, finobj, true), b)
  {
    SelectMembers(c, finobj, true);
    forall i | 0 <= i < |Select(c, finobj, true)| ensures Select(c, finobj, true)[i] in b {
      assert Select(c, finobj, true)[i] in finobj;
    }
  }

  // The tables of the lists that are to be cleared.
  lemma ListedTables(s: St)
    requires MarkInv(s, {})
    ensures GrayTables(s, s.weak) && GrayTables(s, s.allweak) && GrayTables(s, s.ephemeron)
  {
    hide HeapWF, Exist, LocsOk, NoDead, FixedOk, TwupsOk, StuckOk, BlackInv, GrayInv, BoundClosed, MarkedWithin, ListIs, AllWeakIs, GrayTables;
    ListTables(s, WeakL, s.weak);
    AllWeakTables(s);
    ListTables(s, EphL, s.ephemeron);
  }

  lemma ListTables(s: St, l: Loc, xs: seq<Ref>)
    requires LocsOk(s.heap, s.color, s.loc) && ListIs(s.loc, l, xs) && l in {WeakL, EphL}
    ensures GrayTables(s, xs)
  {
    forall r | r in xs ensures r in s.heap && s.heap[r].Table? && r in s.color && s.color[r].Gray? {
      assert LocOk(s.loc[r], s.heap[r]);
    }
  }

  lemma PrefixTables(s: St, l: seq<Ref>, n: nat)
    requires GrayTables(s, l) && AllValStrs(s.heap, s.bound, l) && n <= |l|
    ensures GrayTables(s, l[..n]) && AllValStrs(s.heap, s.bound, l[..n])
  {}

  lemma AllWeakTables(s: St)
    requires LocsOk(s.heap, s.color, s.loc) && AllWeakIs(s.loc, s.allweak)
    ensures GrayTables(s, s.allweak)
  {
    forall r | r in s.allweak ensures r in s.heap && s.heap[r].Table? && r in s.color && s.color[r].Gray? {
      assert r in Merged(s.loc);
      assert LocOk(s.loc[r], s.heap[r]);
    }
  }

  // A table linked in 'allweak' without having been traversed is all-weak and not stuck, or
  // its strings are within the bound: clearing may mark them.
  ghost predicate LooseIn(s: St) {
    forall t :: t in s.loc && s.loc[t] == AllWeakL ==>
      || (t in s.heap && s.heap[t].Table? && s.heap[t].mode.AllWeak? && t !in s.stuck)
      || (KeyStrs(s.heap, s.bound, t) && ValStrs(s.heap, s.bound, t))
  }

  lemma LooseKept(s: St, s': St)
    requires LooseIn(s) && Trim(s.heap, s'.heap) && ListedKeeps(s, s') && s'.stuck == s.stuck && s.bound <= s'.bound
    ensures LooseIn(s')
  {
    hide KeyStrs, ValStrs;
    forall t | t in s.heap ensures ObjTrim(s.heap[t], s'.heap[t]) {}
    hide Trim;
    forall t | t in s'.loc && s'.loc[t] == AllWeakL && t in s.loc && s.loc[t] == AllWeakL
      ensures (KeyStrs(s.heap, s.bound, t) ==> KeyStrs(s'.heap, s'.bound, t)) && (ValStrs(s.heap, s.bound, t) ==> ValStrs(s'.heap, s'.bound, t))
    {
      assert Trim(s.heap, s'.heap);
      StrsTrim(s.heap, s'.heap, s.bound, s'.bound, t);
    }
  }

  // An all-weak table that is not stuck: nothing but clearing looks at its entries.
  ghost predicate Regular(s: St, t: Ref) {
    t in s.heap && s.heap[t].Table? && s.heap[t].mode.AllWeak? && t !in s.stuck
  }

  // The table has the string as a value, or as the key of an entry that is not empty.
  ghost predicate HasValue(h: Heap, t: Ref, r: Ref) {
    IsStr(h, Obj(r)) && exists i :: 0 <= i < |Nodes(h, t)| && Nodes(h, t)[i].val == Obj(r)
  }

  ghost predicate HasKey(h: Heap, t: Ref, r: Ref) {
    IsStr(h, Obj(r)) && exists i :: 0 <= i < |Nodes(h, t)| && !Nodes(h, t)[i].val.Nil? && Nodes(h, t)[i].key == Obj(r)
  }

  ghost function ListedValues(s: St): set<Ref> {
    set r | r in s.heap && exists t :: t in s.allweak && Regular(s, t) && HasValue(s.heap, t, r)
  }

  ghost function ListedKeys(s: St): set<Ref> {
    set r | r in s.heap && exists t :: t in s.allweak && Regular(s, t) && HasKey(s.heap, t, r)
  }

  // Strings lead nowhere, so they can be added to a closed set.
  lemma StringsClosed(h: Heap, u: Upvals, stuck: set<Ref>, b: set<Ref>, S: set<Ref>)
    requires BoundClosed(h, u, stuck, b) && forall r :: r in S ==> IsStr(h, Obj(r))
    ensures BoundClosed(h, u, stuck, b + S)
  {
    forall r | r in b + S && r in h && r !in stuck ensures ObjBound(h, u, b + S, h[r]) {
      if r in b { StringsObject(h, u, b, S, h[r]); }
    }
  }

  lemma StringsObject(h: Heap, u: Upvals, b: set<Ref>, S: set<Ref>, o: Object)
    requires ObjBound(h, u, b, o) && forall r :: r in S ==> IsStr(h, Obj(r))
    ensures ObjBound(h, u, b + S, o)
  {
    match o
    case Table(_, mode, _, nodes) =>
      forall i | 0 <= i < |nodes| ensures EntryBound(h, b + S, mode, nodes[i]) { assert EntryBound(h, b, mode, nodes[i]); }
    case _ =>
  }

  lemma AddStrings(s: St, S: set<Ref>)
    requires MarkInv(s, {}) && forall r :: r in S ==> IsStr(s.heap, Obj(r))
    ensures MarkInv(s.(bound := s.bound + S), {})
  {
    BoundIsClosed(s);
    StringsClosed(s.heap, s.upv, s.stuck, s.bound, S);
    assert ClosedSet(s, {}, s.bound + S);
    hide MarkInv, ClosedSet;
    Rebound(s, s.bound + S);
  }

  ghost predicate ValuesIn(s: St) {
    forall t, r :: t in s.allweak && Regular(s, t) && HasValue(s.heap, t, r) ==> r in s.bound
  }

  ghost predicate KeysIn(s: St) {
    forall t, r :: t in s.allweak && Regular(s, t) && HasKey(s.heap, t, r) ==> r in s.bound
  }

  // The strings that clearing values, or keys, of all-weak tables may mark.
  ghost method AddValues(g: GlobalState)
    requires MarkInv(g.View(), {})
    modifies g`bound
    ensures g.bound == old(g.bound) + ListedValues(old(g.View())) && ValuesIn(g.View()) && MarkInv(g.View(), {})
  {
    hide MarkInv;
    AddStrings(g.View(), ListedValues(g.View()));
    g.bound := g.bound + ListedValues(g.View());
  }

  ghost method AddKeys(g: GlobalState)
    requires MarkInv(g.View(), {})
    modifies g`bound
    ensures g.bound == old(g.bound) + ListedKeys(old(g.View())) && KeysIn(g.View()) && MarkInv(g.View(), {})
  {
    hide MarkInv;
    AddStrings(g.View(), ListedKeys(g.View()));
    g.bound := g.bound + ListedKeys(g.View());
  }

  // The bound has the strings of the tables that are going to be cleared.
  lemma ListedValStrs(s: St)
    requires MarkInv(s, {}) && s.inside && LooseIn(s) && ValuesIn(s)
    ensures AllValStrs(s.heap, s.bound, s.weak) && AllValStrs(s.heap, s.bound, s.allweak)
  {
    hide MarkInv, LooseIn, ValuesIn, ValStrs;
    forall t | t in s.weak || t in s.allweak ensures ValStrs(s.heap, s.bound, t) { TableValues(s, t); }
  }

  lemma ListedKeyStrs(s: St)
    requires MarkInv(s, {}) && s.inside && LooseIn(s) && KeysIn(s)
    ensures AllKeyStrs(s.heap, s.bound, s.ephemeron) && AllKeyStrs(s.heap, s.bound, s.allweak)
  {
    hide MarkInv, LooseIn, KeysIn, KeyStrs;
    forall t | t in s.ephemeron || t in s.allweak ensures KeyStrs(s.heap, s.bound, t) { TableKeys(s, t); }
  }

  lemma TableValues(s: St, t: Ref)
    requires MarkInv(s, {}) && s.inside && LooseIn(s) && ValuesIn(s) && (t in s.weak || t in s.allweak)
    ensures ValStrs(s.heap, s.bound, t)
  {
    hide KeyStrs, ValStrs, MarkInv, LooseIn, GrayDone, LocOk, Clear, ObjBound, MarkedWithin, ValuesIn;
    ListedPlace(s, t);
    LooseAt(s, t);
    ChildExists(s, {}, t);
    BoundMarked(s);
    if s.loc[t] != AllWeakL {
      BoundStrs(s, t, s.loc[t]);
    } else if Regular(s, t) {
      RegularValues(s, t);
    }
  }

  lemma TableKeys(s: St, t: Ref)
    requires MarkInv(s, {}) && s.inside && LooseIn(s) && KeysIn(s) && (t in s.ephemeron || t in s.allweak)
    ensures KeyStrs(s.heap, s.bound, t)
  {
    hide KeyStrs, ValStrs, MarkInv, LooseIn, GrayDone, LocOk, Clear, ObjBound, MarkedWithin, KeysIn;
    ListedPlace(s, t);
    LooseAt(s, t);
    ChildExists(s, {}, t);
    BoundMarked(s);
    if s.loc[t] != AllWeakL {
      BoundStrs(s, t, s.loc[t]);
    } else if Regular(s, t) {
      RegularKeys(s, t);
    }
  }

  lemma RegularValues(s: St, t: Ref)
    requires t in s.allweak && Regular(s, t) && ValuesIn(s) && ObjBound(s.heap, s.upv, s.bound, s.heap[t])
    ensures ValStrs(s.heap, s.bound, t)
  {
    var ns := Nodes(s.heap, t);
    forall i | 0 <= i < |ns| ensures StrInB(s.heap, s.bound, ns[i].val) {
      if IsStr(s.heap, ns[i].val) { assert HasValue(s.heap, t, ns[i].val.ref); }
    }
  }

  lemma RegularKeys(s: St, t: Ref)
    requires t in s.allweak && Regular(s, t) && KeysIn(s)
    ensures KeyStrs(s.heap, s.bound, t)
  {
    var ns := Nodes(s.heap, t);
    forall i | 0 <= i < |ns| && !ns[i].val.Nil? ensures StrInB(s.heap, s.bound, ns[i].key) {
      if IsStr(s.heap, ns[i].key) { assert HasKey(s.heap, t, ns[i].key.ref); }
    }
  }

  lemma LooseAt(s: St, t: Ref)
    requires LooseIn(s)
    ensures t in s.loc && s.loc[t] == AllWeakL ==>
            || (t in s.heap && s.heap[t].Table? && s.heap[t].mode.AllWeak? && t !in s.stuck)
            || (KeyStrs(s.heap, s.bound, t) && ValStrs(s.heap, s.bound, t))
  {}

  lemma ListedPlace(s: St, t: Ref)
    requires MarkInv(s, {}) && s.inside && (t in s.weak || t in s.ephemeron || t in s.allweak)
    ensures t in s.heap && s.heap[t].Table? && t in s.loc && s.loc[t] in {WeakL, EphL, AllWeakL, ClearL} && LocOk(s.loc[t], s.heap[t])
    ensures (t in s.weak || t in s.allweak ==> s.loc[t] != EphL) && (s.loc[t] == AllWeakL ==> t in s.allweak)
    ensures s.loc[t] != AllWeakL ==> t !in s.stuck && GrayDone(Whites(s.color), s.loc[t], s.heap[t])
    ensures t !in s.stuck ==> ObjBound(s.heap, s.upv, s.bound, s.heap[t])
  {
    ListedIn(s, t);
    hide HeapWF, Exist, Lists, LocsOk, NoDead, FixedOk, TwupsOk, BlackInv, GrayDone, ObjBound;
  }

  lemma ListedIn(s: St, t: Ref)
    requires MarkInv(s, {}) && (t in s.weak || t in s.ephemeron || t in s.allweak)
    ensures t in s.heap && s.heap[t].Table? && t in s.loc && s.loc[t] in {WeakL, EphL, AllWeakL, ClearL} && LocOk(s.loc[t], s.heap[t])
    ensures t in s.color && s.color[t].Gray? && (t in s.weak || t in s.allweak ==> s.loc[t] != EphL) && (s.loc[t] == AllWeakL ==> t in s.allweak)
  {
    hide HeapWF, Exist, NoDead, FixedOk, TwupsOk, StuckOk, StuckPlaces, BlackInv, GrayInv, BoundClosed, MarkedWithin;
    assert t in s.loc ==> t in Merged(s.loc);
  }

  // What exists and is marked is within the bound.
  lemma MarkedIn(s: St, v: Value)
    requires MarkedWithin(s.color, s.bound) && s.color.Keys == s.heap.Keys && !In(Whites(s.color), v) && !In(Missing(s.heap), v)
    ensures InB(s.bound, v)
  {}

  lemma BoundStrs(s: St, t: Ref, l: Loc)
    requires t in s.heap && s.heap[t].Table? && ObjBound(s.heap, s.upv, s.bound, s.heap[t])
    requires MarkedWithin(s.color, s.bound) && s.color.Keys == s.heap.Keys && Clear(s.heap, s.upv, Missing(s.heap), s.heap[t])
    requires l in {WeakL, EphL, ClearL} && GrayDone(Whites(s.color), l, s.heap[t]) && LocOk(l, s.heap[t])
    ensures KeyStrs(s.heap, s.bound, t) && (l != EphL ==> ValStrs(s.heap, s.bound, t))
  {
    var o, W := s.heap[t], Whites(s.color);
    forall i | 0 <= i < |o.nodes|
      ensures EntryBound(s.heap, s.bound, o.mode, o.nodes[i]) && NodeClear(Missing(s.heap), o.nodes[i])
      ensures !In(W, o.nodes[i].val) ==> InB(s.bound, o.nodes[i].val)
    {
      if !In(W, o.nodes[i].val) { MarkedIn(s, o.nodes[i].val); }
    }
  }

  // Values of weak tables, before objects are resurrected.
  method ClearFirst(g: GlobalState)
    requires g.inside && LooseIn(g.View()) && ValuesIn(g.View()) && g.clearing && MarkInv(g.View(), {})
    modifies g`heap, g`color, g`gray, g`loc
    ensures AllValuesCleared(g.View(), g.weak) && AllValuesCleared(g.View(), g.allweak)
    ensures g.gray == old(g.gray) && Clearing(old(g.View()), g.View())
    ensures ChangedIn(old(g.heap), g.heap, old(Whites(g.color)), Elements(g.weak) + Elements(g.allweak), false)
    ensures MarkInv(g.View(), {})
  {
    hide MarkInv, AllValuesCleared, GrayTables, AllValStrs, AllKeyStrs, LooseIn, ValuesIn, ChangedIn, Elements;
    ghost var s0 := g.View();
    ListedTables(s0);
    ListedValStrs(s0);
    ClearValues(g, g.weak);
    ghost var s1 := g.View();
    GrayTablesKept(s0, s1, g.allweak);
    AllStrsCleared(s0, s1, g.allweak);
    ClearValues(g, g.allweak);
    AllClearedKept(s1, g.View(), g.weak);
    ClearingTransitive(s0, s1, g.View());
    ChangedTransitive(s0.heap, s1.heap, g.heap, Whites(s0.color), Whites(s1.color), Elements(g.weak), Elements(g.allweak), false);
  }

  // Tables that are not in 'b', and ephemeron tables, have lost nothing.
  ghost predicate Spared(s: St, s': St, b: set<Ref>) {
    forall r :: r in s.heap && s.heap[r].Table? && r !in s.stuck && (r !in b || s.heap[r].mode.Ephemeron?) ==>
      r in s'.heap && TableLoses(s.heap, iset{}, s.heap[r], s'.heap[r])
  }

  lemma FirstSpared(s: St, s': St)
    requires MarkInv(s, {}) && s.inside && ModesKept(s) && Clearing(s, s')
    requires ChangedIn(s.heap, s'.heap, Whites(s.color), Elements(s.weak) + Elements(s.allweak), false)
    ensures Spared(s, s', Marked(s.color))
  {
    hide MarkInv, ModesKept, Clearing, ChangedIn, TableLoses, Marked;
    forall r | r in s.heap && s.heap[r].Table? && r !in s.stuck && (r !in Marked(s.color) || s.heap[r].mode.Ephemeron?)
      ensures r in s'.heap && TableLoses(s.heap, iset{}, s.heap[r], s'.heap[r])
    {
      FirstSparedAt(s, s', r);
    }
  }

  lemma FirstSparedAt(s: St, s': St, r: Ref)
    requires MarkInv(s, {}) && s.inside && ModesKept(s) && Clearing(s, s')
    requires ChangedIn(s.heap, s'.heap, Whites(s.color), Elements(s.weak) + Elements(s.allweak), false)
    requires r in s.heap && s.heap[r].Table? && r !in s.stuck && (r !in Marked(s.color) || s.heap[r].mode.Ephemeron?)
    ensures r in s'.heap && TableLoses(s.heap, iset{}, s.heap[r], s'.heap[r])
  {
    hide MarkInv, ModesKept;
    ListedTables(s);
    ClearingTrim(s, s');
    hide Clearing;
    if r in s.weak || r in s.allweak {
      hide TableLoses;
      ListedEphemeron(s, s', r);
    }
  }

  // A listed ephemeron table has only marked values.
  lemma ListedEphemeron(s: St, s': St, r: Ref)
    requires MarkInv(s, {}) && s.inside && ModesKept(s) && Clearing(s, s')
    requires r in s.heap && s.heap[r].Table? && r !in s.stuck && s.heap[r].mode.Ephemeron? && (r in s.weak || r in s.allweak)
    requires r in s'.heap && EntriesLost(s.heap, Whites(s.color), Nodes(s.heap, r), Nodes(s'.heap, r), false)
    ensures TableLoses(s.heap, iset{}, s.heap[r], s'.heap[r])
  {
    hide MarkInv, ModesKept, Clearing, GrayDone, LocOk, TableLoses, EntriesLost;
    ListedPlace(s, r);
    ListedMode(s, r);
    ClearingLoses(s, s', r);
    EphemeronDone(Whites(s.color), s.loc[r], s.heap[r]);
    EphemeronSpared(s.heap, Whites(s.color), s.heap[r], s'.heap[r]);
  }

  lemma EphemeronDone(W: iset<Ref>, l: Loc, o: Object)
    requires o.Table? && o.mode.Ephemeron? && l in {WeakL, ClearL} && GrayDone(W, l, o)
    ensures NoneIn(W, o.arr) && ValsClear(W, o.nodes)
  {}

  lemma EphemeronSpared(h: Heap, W: iset<Ref>, t: Object, t': Object)
    requires t.Table? && TableLoses(h, W, t, t') && EntriesLost(h, W, t.nodes, t'.nodes, false) && NoneIn(W, t.arr) && ValsClear(W, t.nodes)
    ensures TableLoses(h, iset{}, t, t')
  {}

  lemma ListedMode(s: St, r: Ref)
    requires ModesKept(s) && r in s.heap && s.heap[r].Table? && s.heap[r].mode.Ephemeron? && r in s.loc
    ensures s.loc[r] != AllWeakL
  {}

  lemma ClearingLoses(s: St, s': St, r: Ref)
    requires Clearing(s, s') && r in s.heap && r in s'.heap && s.heap[r].Table?
    ensures TableLoses(s.heap, Whites(s.color), s.heap[r], s'.heap[r])
  {}

  lemma SparedBefore(s0: St, s: St, s': St, b: set<Ref>)
    requires Settling(s0, s, iset{}) && Spared(s, s', b)
    ensures Spared(s0, s', b)
  {
    TrimStrings(s0.heap, s.heap);
    hide IsStr, ValueLost;
    forall r | r in s0.heap && s0.heap[r].Table? && r !in s0.stuck && (r !in b || s0.heap[r].mode.Ephemeron?)
      ensures r in s'.heap && TableLoses(s0.heap, iset{}, s0.heap[r], s'.heap[r])
    {
      assert ObjTrim(s0.heap[r], s.heap[r]) && TableLoses(s0.heap, iset{}, s0.heap[r], s.heap[r]);
      LosesObject(s0.heap, s.heap, s0.heap[r], s.heap[r], s'.heap[r], iset{}, iset{});
    }
  }

  // Dead keys of the weak tables.
  method ClearAllKeys(g: GlobalState)
    requires g.inside && LooseIn(g.View()) && KeysIn(g.View()) && g.clearing && MarkInv(g.View(), {})
    modifies g`heap, g`color, g`gray, g`loc
    ensures AllKeysCleared(g.View(), g.ephemeron) && AllKeysCleared(g.View(), g.allweak) && Clearing(old(g.View()), g.View())
    ensures ChangedIn(old(g.heap), g.heap, old(Whites(g.color)), Elements(g.ephemeron) + Elements(g.allweak), true)
    ensures MarkInv(g.View(), {})
  {
    hide MarkInv, AllKeysCleared, GrayTables, Clearing, AllKeyStrs, LooseIn, KeysIn, ChangedIn, Elements;
    ghost var s0 := g.View();
    ListedTables(s0);
    ListedKeyStrs(s0);
    ClearKeys(g, g.ephemeron);
    ghost var s1 := g.View();
    ListedTables(s1);
    AllStrsCleared(s0, s1, g.allweak);
    ClearingTrim(s0, s1);
    ClearKeys(g, g.allweak);
    ClearingKeeps(s0, s1, g.View(), g.ephemeron, []);
    ChangedTransitive(s0.heap, s1.heap, g.heap, Whites(s0.color), Whites(s1.color), Elements(g.ephemeron), Elements(g.allweak), true);
  }

  // The values of those weak tables that were reached only from resurrected objects: the
  // lists up to their old first elements.
  method ClearLateValues(g: GlobalState, origweak: seq<Ref>, origall: seq<Ref>)
    requires Suffix(origweak, g.weak) && Suffix(origall, g.allweak) && g.inside && LooseIn(g.View()) && ValuesIn(g.View()) && g.clearing
    requires MarkInv(g.View(), {})
    modifies g`heap, g`color, g`gray, g`loc
    ensures AllValuesCleared(g.View(), g.weak[..|g.weak| - |origweak|])
    ensures AllValuesCleared(g.View(), g.allweak[..|g.allweak| - |origall|])
    ensures Clearing(old(g.View()), g.View())
    ensures MarkInv(g.View(), {})
  {
    hide MarkInv, AllValuesCleared, GrayTables, Clearing, AllValStrs, LooseIn, ValuesIn;
    ghost var s0 := g.View();
    ListedTables(s0);
    ListedValStrs(s0);
    PrefixTables(s0, g.weak, |g.weak| - |origweak|);
    ClearValues(g, g.weak[..|g.weak| - |origweak|]);
    ghost var s1 := g.View();
    ListedTables(s1);
    AllStrsCleared(s0, s1, g.allweak);
    PrefixTables(s1, g.allweak, |g.allweak| - |origall|);
    ClearValues(g, g.allweak[..|g.allweak| - |origall|]);
    ClearingKeeps(s0, s1, g.View(), [], g.weak[..|g.weak| - |origweak|]);
  }

  lemma ClearingKeeps(s0: St, s: St, s': St, keys: seq<Ref>, values: seq<Ref>)
    requires Clearing(s0, s) && Clearing(s, s')
    ensures Clearing(s0, s') && s'.ephemeron == s.ephemeron && s'.allweak == s.allweak && s'.weak == s.weak
    ensures AllKeysCleared(s, keys) ==> AllKeysCleared(s', keys)
    ensures AllValuesCleared(s, values) ==> AllValuesCleared(s', values)
  {
    hide AllKeysCleared, AllValuesCleared, LosesOnly;
    ClearingTransitive(s0, s, s');
    AllClearedKept(s, s', keys);
    AllClearedKept(s, s', values);
  }

  // Nothing marked leads to anything unmarked.
  ghost predicate AllClear(s: St) {
    forall r :: r in s.heap && r in s.color && !s.color[r].White? ==> Clear(s.heap, s.upv, Whites(s.color), s.heap[r])
  }

  ghost predicate NothingPending(s: St) {
    s.gray == [] && s.again == [] && s.work == [] && s.inside && s.remarked
  }

  // The key of an emptied entry that is not marked, and has not been tagged dead.
  ghost predicate StaleKey(W: iset<Ref>, n: Node) {
    n.val.Nil? && !n.dead && In(W, n.key)
  }

  // What marking and clearing do not look after: an all-weak table is not traversed, and
  // clearing skips its empty entries; and a stuck object is not visited at all.
  ghost predicate Overlooked(s: St, r: Ref) {
    && r in s.heap && r in s.color && !s.color[r].White?
    && ((r in s.stuck && !Clear(s.heap, s.upv, Whites(s.color), s.heap[r])) ||
        (r in s.loc && s.loc[r] == AllWeakL && exists i :: 0 <= i < |Nodes(s.heap, r)| && StaleKey(Whites(s.color), Nodes(s.heap, r)[i])))
  }

  ghost predicate NoneOverlooked(s: St) {
    forall r :: r in s.heap ==> !Overlooked(s, r)
  }

  lemma WellFormedAt(s: St, r: Ref)
    requires MarkInv(s, {}) && r in s.heap
    ensures ObjectWF(s.upv, r, s.heap[r])
  {}

  lemma BlackClear(s: St, r: Ref)
    requires MarkInv(s, {}) && NothingPending(s) && r in s.heap && r in s.color && s.color[r].Black? && r !in s.stuck
    ensures Clear(s.heap, s.upv, Whites(s.color), s.heap[r])
  {
    hide HeapWF, Exist, LocsOk, NoDead, FixedOk, TwupsOk, StuckOk, StuckPlaces, GrayInv, BoundClosed, MarkedWithin, AllWeakIs;
    assert forall x :: !Pending(s.loc, x);
    assert BlackOk(s.heap, s.upv, Whites(s.color), Remarked, s.loc, {}, s.heap[r]);
    if s.heap[r].LClosure? {
      WellFormedAt(s, r);
      var ids := s.heap[r].upvals;
      forall i | 0 <= i < |ids| && ids[i].Some? ensures !In(Whites(s.color), UvValue(s.heap, s.upv, ids[i].value)) {
        assert UvBlack(s.heap, s.upv, Whites(s.color), Remarked, s.loc, {}, ids[i].value);
      }
    }
  }

  lemma EphClear(W: iset<Ref>, h: Heap, ns: seq<Node>)
    requires EphClosedTo(h, W, ns, |ns|) && LiveKeys(W, ns) && EmptyClear(W, ns)
    ensures NodesClear(W, ns)
  {
    forall i | 0 <= i < |ns| ensures NodeClear(W, ns[i]) {
      assert EphEntry(h, W, ns[i]);
    }
  }

  lemma WeakClear(W: iset<Ref>, ns: seq<Node>)
    requires ValsClear(W, ns) && (KeysClear(W, ns) || (LiveKeys(W, ns) && EmptyClear(W, ns)))
    ensures NodesClear(W, ns)
  {}

  lemma GrayPlace(s: St, r: Ref)
    requires MarkInv(s, {}) && NothingPending(s) && r in s.heap && r in s.color && s.color[r].Gray? && r !in s.stuck
    ensures r in s.loc && (GrayDone(Whites(s.color), s.loc[r], s.heap[r]) || s.heap[r].Str?)
    ensures LocOk(s.loc[r], s.heap[r]) && s.loc[r] != WorkL
    ensures s.loc[r] == WeakL ==> r in s.weak
    ensures s.loc[r] == AllWeakL || s.loc[r] == ClearL ==> r in s.allweak
    ensures s.loc[r] == EphL ==> r in s.ephemeron
  {
    assert forall x :: !Pending(s.loc, x);
    assert GrayOk(Whites(s.color), s.inside, s.fixed, s.loc[r], r, s.heap[r]);
    hide HeapWF, Exist, NoDead, FixedOk, TwupsOk, StuckOk, BlackInv, GrayInv, BoundClosed, MarkedWithin;
    assert r in Merged(s.loc);
  }

  // All weak tables have been cleared.
  ghost predicate Cleared(s: St) {
    && AllEphClosed(s) && AllKeysCleared(s, s.ephemeron) && AllKeysCleared(s, s.allweak)
    && AllValuesCleared(s, s.weak) && AllValuesCleared(s, s.allweak)
  }

  // What clearing has done to a table in the list l.
  lemma GrayTableClear(s: St, r: Ref)
    requires r in s.heap && s.heap[r].Table? && r in s.loc && s.loc[r] != AllWeakL && s.loc[r] != WorkL
    requires GrayDone(Whites(s.color), s.loc[r], s.heap[r]) && LocOk(s.loc[r], s.heap[r])
    requires s.loc[r] == WeakL ==> ValuesCleared(s, r)
    requires s.loc[r] == ClearL ==> ValuesCleared(s, r) && KeysCleared(s, r)
    requires s.loc[r] == EphL ==> KeysCleared(s, r) && EphClosed(s, r)
    ensures Clear(s.heap, s.upv, Whites(s.color), s.heap[r])
  {
    var W, ns := Whites(s.color), s.heap[r].nodes;
    assert Nodes(s.heap, r) == ns;
    if s.loc[r] == EphL {
      EphClear(W, s.heap, ns);
    } else if s.loc[r] == WeakL || s.loc[r] == ClearL || s.heap[r].mode.WeakValues? {
      WeakClear(W, ns);
    }
  }

  lemma GrayClear(s: St, r: Ref)
    requires MarkInv(s, {}) && NothingPending(s) && r in s.heap && r in s.color && s.color[r].Gray?
    requires Cleared(s) && r !in s.stuck && r in s.loc && s.loc[r] != AllWeakL
    ensures Clear(s.heap, s.upv, Whites(s.color), s.heap[r])
  {
    GrayPlace(s, r);
    hide MarkInv, NothingPending, ValuesCleared, KeysCleared, EphClosed;
    if s.heap[r].Table? {
      hide GrayDone, LocOk;
      GrayTableClear(s, r);
    }
  }

  // An all-weak table has been cleared, but for its empty entries.
  lemma AllWeakClear(s: St, r: Ref)
    requires MarkInv(s, {}) && NothingPending(s) && r in s.heap && r in s.color && s.color[r].Gray?
    requires Cleared(s) && r !in s.stuck && r in s.loc && s.loc[r] == AllWeakL
    ensures Clear(s.heap, s.upv, Whites(s.color), s.heap[r]) <==> !Overlooked(s, r)
  {
    hide MarkInv, NothingPending, Cleared, ValuesCleared, KeysCleared;
    GrayPlace(s, r);
    AllWeakCleared(s, r);
    hide LocOk;
    AllWeakNodes(s, r);
  }

  lemma AllWeakNodes(s: St, r: Ref)
    requires r in s.heap && s.heap[r].Table? && r !in s.stuck && r in s.color && !s.color[r].White? && r in s.loc && s.loc[r] == AllWeakL
    requires ValuesCleared(s, r) && KeysCleared(s, r) && !OptIn(Whites(s.color), s.heap[r].meta)
    ensures Clear(s.heap, s.upv, Whites(s.color), s.heap[r]) <==> !Overlooked(s, r)
  {
    var W, ns := Whites(s.color), s.heap[r].nodes;
    assert Nodes(s.heap, r) == ns;
    forall i | 0 <= i < |ns| ensures NodeClear(W, ns[i]) <==> !StaleKey(W, ns[i]) {}
  }

  lemma AllWeakCleared(s: St, r: Ref)
    requires Cleared(s) && r in s.allweak
    ensures ValuesCleared(s, r) && KeysCleared(s, r)
  {
    hide AllEphClosed, ValuesCleared, KeysCleared;
  }

  // The places of gray objects.
  lemma GrayLinked(s: St, r: Ref)
    requires MarkInv(s, {}) && r in s.heap
    ensures r in s.loc && r in s.color && (s.loc[r] == AllWeakL ==> s.color[r].Gray?)
  {
    hide HeapWF, Exist, NoDead, FixedOk, TwupsOk, StuckOk, BlackInv, GrayInv, BoundClosed, MarkedWithin, Lists;
  }

  lemma ObjectSettled(s: St, r: Ref)
    requires MarkInv(s, {}) && NothingPending(s) && Cleared(s) && r in s.heap && r in s.color && !s.color[r].White?
    ensures Clear(s.heap, s.upv, Whites(s.color), s.heap[r]) <==> !Overlooked(s, r)
  {
    GrayLinked(s, r);
    hide MarkInv, NothingPending, Cleared, Clear;
    if r in s.stuck {
      StuckSettled(s, r);
    } else if s.color[r].Black? {
      BlackClear(s, r);
    } else if s.loc[r] == AllWeakL {
      AllWeakClear(s, r);
    } else {
      GrayClear(s, r);
    }
  }

  lemma StuckSettled(s: St, r: Ref)
    requires r in s.stuck && r in s.heap && r in s.color && !s.color[r].White?
    ensures Clear(s.heap, s.upv, Whites(s.color), s.heap[r]) <==> !Overlooked(s, r)
  {
    var W, ns := Whites(s.color), Nodes(s.heap, r);
    if Clear(s.heap, s.upv, W, s.heap[r]) {
      forall i | 0 <= i < |ns| ensures !StaleKey(W, ns[i]) { assert NodeClear(W, ns[i]); }
    }
  }

  // Whatever a marked table still holds is marked, but for the keys of its empty entries.
  ghost predicate ContentsClear(W: iset<Ref>, arr: seq<Value>, ns: seq<Node>) {
    NoneIn(W, arr) && forall i :: 0 <= i < |ns| && !ns[i].val.Nil? ==> !In(W, ns[i].key) && !In(W, ns[i].val)
  }

  ghost predicate TablesClear(s: St) {
    forall r :: r in s.heap && s.heap[r].Table? && r in s.color && !s.color[r].White? && r !in s.stuck ==>
      ContentsClear(Whites(s.color), s.heap[r].arr, s.heap[r].nodes)
  }

  lemma TablesSettled(s: St)
    requires MarkInv(s, {}) && NothingPending(s) && Cleared(s)
    ensures TablesClear(s)
  {
    hide MarkInv, NothingPending, Cleared, ContentsClear;
    forall r | r in s.heap && s.heap[r].Table? && r in s.color && !s.color[r].White? && r !in s.stuck
      ensures ContentsClear(Whites(s.color), s.heap[r].arr, s.heap[r].nodes)
    {
      TableSettled(s, r);
    }
  }

  lemma TableSettled(s: St, r: Ref)
    requires MarkInv(s, {}) && NothingPending(s) && Cleared(s)
    requires r in s.heap && s.heap[r].Table? && r in s.color && !s.color[r].White? && r !in s.stuck
    ensures ContentsClear(Whites(s.color), s.heap[r].arr, s.heap[r].nodes)
  {
    hide MarkInv, NothingPending, Cleared, Clear, GrayDone, LocOk, ContentsClear, ValuesCleared, KeysCleared;
    GrayLinked(s, r);
    DeadEmptyAt(s, r);
    if s.color[r].Black? {
      BlackClear(s, r);
      ContentsFromClear(s, r);
    } else if s.loc[r] == AllWeakL {
      GrayPlace(s, r);
      AllWeakCleared(s, r);
      ContentsFromLists(s, r);
    } else {
      GrayClear(s, r);
      ContentsFromClear(s, r);
    }
  }

  lemma ContentsFromClear(s: St, r: Ref)
    requires r in s.heap && s.heap[r].Table? && DeadEmpty(s.heap[r].nodes) && Clear(s.heap, s.upv, Whites(s.color), s.heap[r])
    ensures ContentsClear(Whites(s.color), s.heap[r].arr, s.heap[r].nodes)
  {}

  lemma ContentsFromLists(s: St, r: Ref)
    requires r in s.heap && s.heap[r].Table? && ValuesCleared(s, r) && KeysCleared(s, r)
    ensures ContentsClear(Whites(s.color), s.heap[r].arr, s.heap[r].nodes)
  {}

  // After marking and clearing, nothing marked leads to anything unmarked if and only if
  // nothing has been overlooked.
  lemma AllSettled(s: St)
    requires MarkInv(s, {}) && NothingPending(s) && Cleared(s)
    ensures AllClear(s) <==> NoneOverlooked(s)
  {
    hide MarkInv, NothingPending, Cleared;
    forall r | r in s.heap && r in s.color && !s.color[r].White?
      ensures Clear(s.heap, s.upv, Whites(s.color), s.heap[r]) <==> !Overlooked(s, r)
    {
      ObjectSettled(s, r);
    }
    hide Clear;
  }

  // What SeparateToBeFnz, called when colours were c, has done to the lists.
  ghost predicate Separated(c: Colors, finobj: seq<Ref>, tobefnz: seq<Ref>, finobj': seq<Ref>, tobefnz': seq<Ref>) {
    finobj' == Select(c, finobj, false) && tobefnz' == tobefnz + Select(c, finobj, true)
  }

  // The two lists together have the same objects as before.
  ghost predicate SameObjs(finobj: seq<Ref>, tobefnz: seq<Ref>, finobj': seq<Ref>, tobefnz': seq<Ref>) {
    multiset(finobj') + multiset(tobefnz') == multiset(finobj) + multiset(tobefnz)
  }

  lemma SeparatedClear(c: Colors, c': Colors, finobj: seq<Ref>, tobefnz: seq<Ref>, finobj': seq<Ref>, tobefnz': seq<Ref>)
    requires Separated(c, finobj, tobefnz, finobj', tobefnz') && Whites(c') <= Whites(c)
    ensures NoneOf(Whites(c'), finobj') && SameObjs(finobj, tobefnz, finobj', tobefnz')
  {
    SelectMembers(c, finobj, false);
    SelectSplits(c, finobj);
    forall i | 0 <= i < |finobj'| ensures finobj'[i] !in Whites(c') {
      assert finobj'[i] in finobj';
      StaysMarked(c, c', finobj'[i]);
    }
  }

  lemma ValuesClearedSplit(s: St, l: seq<Ref>, orig: seq<Ref>)
    requires Suffix(orig, l) && AllValuesCleared(s, orig) && AllValuesCleared(s, l[..|l| - |orig|])
    ensures AllValuesCleared(s, l)
  {
    assert l == l[..|l| - |orig|] + orig;
  }

  // An entry of an all-weak table that is cleared only in the end has the string marked: as its
  // key, or as its value if it is not lost for its key. W are the whites in the end.
  ghost predicate LateAt(h: Heap, W: iset<Ref>, n: Node, r: Ref) {
    IsStr(h, Obj(r)) && !n.val.Nil? && (n.key == Obj(r) || (n.val == Obj(r) && !ValueLost(h, W, n.key)))
  }

  ghost predicate LateIn(s: St, s': St, t: Ref, r: Ref) {
    && t in Marked(s'.color) && Regular(s, t)
    && exists i :: 0 <= i < |Nodes(s.heap, t)| && LateAt(s.heap, Whites(s'.color), Nodes(s.heap, t)[i], r)
  }

  // Entries have been lost only for a key or a value in W.
  ghost predicate NodesLose(h: Heap, W: iset<Ref>, ns: seq<Node>, ns': seq<Node>) {
    |ns'| == |ns| && forall i :: 0 <= i < |ns| ==> ns'[i].val == ns[i].val || EntryLost(h, W, ns[i])
  }

  ghost predicate LateLost(s: St, s': St) {
    forall t :: t in s.heap ==> NodesLose(s.heap, Whites(s'.color), Nodes(s.heap, t), Nodes(s'.heap, t))
  }

  // Besides what was within the bound before, exactly these strings are; entries are lost only
  // for what is not marked in the end.
  ghost predicate LateDone(s: St, s': St) {
    && LateLost(s, s') && s.bound <= s'.bound && (forall r :: r in s'.bound ==> r in s.bound || exists t :: LateIn(s, s', t, r))
    && forall t, r :: LateIn(s, s', t, r) ==> r !in Whites(s'.color)
  }

  // From the end of the second propagation on: keys and values of weak tables are
  // cleared, the values of the original tables having been cleared before.
  method ClearWeak(g: GlobalState, origweak: seq<Ref>, origall: seq<Ref>)
    requires Suffix(origweak, g.weak) && Suffix(origall, g.allweak) && LooseIn(g.View()) && g.clearing
    requires AllValuesCleared(g.View(), origweak) && AllValuesCleared(g.View(), origall)
    requires NothingPending(g.View()) && AllEphClosed(g.View()) && MarkInv(g.View(), {})
    modifies g`heap, g`color, g`gray, g`loc, g`bound
    ensures NothingPending(g.View()) && Cleared(g.View()) && Clearing(old(g.View()), g.View()) && LateDone(old(g.View()), g.View())
    ensures MarkInv(g.View(), {})
  {
    hide MarkInv, AllValuesCleared, AllKeysCleared, Clearing, NothingPending, AllEphClosed, LooseIn, KeysIn, ValuesIn, ChangedIn, LateDone, ListedKeys, ListedValues, Cleared;
    ghost var s0 := g.View();
    PendingInside(s0);
    AddKeys(g);
    ghost var s1 := g.View();
    ClearingBound(s0, s1);
    LooseClearing(s0, s1);
    ClearAllKeys(g);
    ghost var s2 := g.View();
    LooseClearing(s1, s2);
    ClearingFlags(s1, s2);
    AddValues(g);
    ghost var s3 := g.View();
    ClearingBound(s2, s3);
    LooseClearing(s2, s3);
    ClearLateValues(g, origweak, origall);
    AllCleared(s0, s1, s2, s3, g.View(), origweak, origall);
    LateAll(s0, s1, s2, s3, g.View());
  }

  lemma ClearingBound(s: St, s': St)
    requires s' == s.(bound := s'.bound) && s.bound <= s'.bound && s.clearing
    ensures Clearing(s, s')
  {
    TrimReflexive(s.heap);
  }

  lemma ClearingFlags(s: St, s': St)
    requires Clearing(s, s')
    ensures s'.inside == s.inside && s'.clearing == s.clearing && s'.weak == s.weak && s'.allweak == s.allweak && s'.ephemeron == s.ephemeron
  {}

  lemma AllCleared(s0: St, s1: St, s2: St, s3: St, s: St, origweak: seq<Ref>, origall: seq<Ref>)
    requires Clearing(s0, s1) && Clearing(s1, s2) && Clearing(s2, s3) && Clearing(s3, s) && NothingPending(s0) && AllEphClosed(s0)
    requires Suffix(origweak, s.weak) && Suffix(origall, s.allweak) && AllValuesCleared(s0, origweak) && AllValuesCleared(s0, origall)
    requires AllKeysCleared(s2, s2.ephemeron) && AllKeysCleared(s2, s2.allweak)
    requires AllValuesCleared(s, s.weak[..|s.weak| - |origweak|]) && AllValuesCleared(s, s.allweak[..|s.allweak| - |origall|])
    ensures NothingPending(s) && Cleared(s) && Clearing(s0, s) && Clearing(s2, s) && Clearing(s0, s2)
  {
    hide AllValuesCleared, AllKeysCleared, Clearing, NothingPending, AllEphClosed, Suffix;
    ClearingTransitive(s0, s1, s2);
    ClearingTransitive(s2, s3, s);
    ClearingTransitive(s0, s2, s);
    ClearingFlags(s2, s);
    ClearedPending(s0, s);
    ClearedKeys(s2, s, s2.ephemeron);
    ClearedKeys(s2, s, s2.allweak);
    ClearedValues(s0, s, origweak);
    ClearedValues(s0, s, origall);
    ValuesClearedSplit(s, s.weak, origweak);
    ValuesClearedSplit(s, s.allweak, origall);
  }

  lemma ClearedKeys(s: St, s': St, l: seq<Ref>)
    requires Clearing(s, s') && AllKeysCleared(s, l)
    ensures AllKeysCleared(s', l)
  {
    hide AllKeysCleared;
    AllClearedKept(s, s', l);
  }

  // The places of all-weak tables.
  lemma RegularPlace(s: St, t: Ref)
    requires MarkInv(s, {}) && NothingPending(s) && Regular(s, t) && t in Marked(s.color)
    ensures t in s.allweak || (Clear(s.heap, s.upv, Whites(s.color), s.heap[t]) && DeadEmpty(s.heap[t].nodes))
  {
    hide MarkInv, NothingPending, Clear;
    DeadEmptyAt(s, t);
    if s.color[t].Black? {
      BlackClear(s, t);
    } else {
      GrayPlace(s, t);
    }
  }

  lemma LateAll(s0: St, s1: St, s2: St, s3: St, s: St)
    requires MarkInv(s0, {}) && NothingPending(s0) && MarkInv(s, {}) && NothingPending(s) && Cleared(s)
    requires s1 == s0.(bound := s0.bound + ListedKeys(s0)) && Clearing(s0, s2) && Clearing(s2, s) && Clearing(s0, s)
    requires ChangedIn(s1.heap, s2.heap, Whites(s1.color), Elements(s2.ephemeron) + Elements(s2.allweak), true)
    requires AllKeysCleared(s2, s2.allweak) && s2.bound == s1.bound && s3 == s2.(bound := s2.bound + ListedValues(s2)) && s.bound == s3.bound
    ensures LateDone(s0, s)
  {
    hide MarkInv, NothingPending, Cleared, ListedKeys, ListedValues, Clearing, ChangedIn, AllKeysCleared, LateIn, TablesClear, Whites, LateLost;
    TablesSettled(s);
    BoundMarked(s0);
    LateLoses(s0, s);
    LateBound(s0, s1, s2, s);
    forall t, r | LateIn(s0, s, t, r) ensures r !in Whites(s.color) { LateMarked(s0, s2, s, t, r); }
  }

  lemma LateLoses(s: St, s': St)
    requires Clearing(s, s') && s.color.Keys == s.heap.Keys
    ensures LateLost(s, s')
  {
    hide Clearing, NodesLose;
    forall t | t in s.heap ensures NodesLose(s.heap, Whites(s'.color), Nodes(s.heap, t), Nodes(s'.heap, t)) { LateLosesAt(s, s', t); }
  }

  lemma LateLosesAt(s: St, s': St, t: Ref)
    requires Clearing(s, s') && t in s.heap
    ensures NodesLose(s.heap, Whites(s'.color), Nodes(s.heap, t), Nodes(s'.heap, t))
  {
    assert forall v: Value :: ValueLost(s.heap, Whites(s.color), v) ==> ValueLost(s.heap, Whites(s'.color), v);
    ClearingTrim(s, s');
    TableTrim(s.heap, s'.heap, t);
    TrimKeys0(s.heap, s'.heap);
    if s.heap[t].Table? {
      ClearingLoses(s, s', t);
      hide Clearing, Trim, ValueLost;
    }
  }

  lemma LateBound(s0: St, s1: St, s2: St, s: St)
    requires MarkInv(s0, {}) && Clearing(s0, s2) && Clearing(s2, s) && Clearing(s0, s) && AllKeysCleared(s2, s2.allweak)
    requires s1.bound == s0.bound + ListedKeys(s0) && s2.bound == s1.bound && s.bound == s2.bound + ListedValues(s2)
    ensures s0.bound <= s.bound && forall r :: r in s.bound ==> r in s0.bound || exists t :: LateIn(s0, s, t, r)
  {
    hide MarkInv, ListedKeys, ListedValues, Clearing, AllKeysCleared, LateIn;
    forall r | r in s.bound && r !in s0.bound ensures exists t :: LateIn(s0, s, t, r) {
      if r in ListedKeys(s0) { LateKey(s0, s, r); } else { LateValue(s0, s2, s, r); }
    }
  }

  lemma StaysGray(s: St, s': St, t: Ref)
    requires MarkInv(s, {}) && Clearing(s, s') && t in s.allweak
    ensures t in Marked(s'.color)
  {
    ListedTables(s);
    hide MarkInv;
    StaysMarked(s.color, s'.color, t);
  }

  lemma LateKey(s0: St, s: St, r: Ref)
    requires MarkInv(s0, {}) && Clearing(s0, s) && r in ListedKeys(s0)
    ensures exists t :: LateIn(s0, s, t, r)
  {
    hide MarkInv, Clearing, Marked;
    var t :| t in s0.allweak && Regular(s0, t) && HasKey(s0.heap, t, r);
    StaysGray(s0, s, t);
    var i :| 0 <= i < |Nodes(s0.heap, t)| && !Nodes(s0.heap, t)[i].val.Nil? && Nodes(s0.heap, t)[i].key == Obj(r);
    assert LateAt(s0.heap, Whites(s.color), Nodes(s0.heap, t)[i], r);
    assert LateIn(s0, s, t, r);
  }

  // What clearing has left of an entry.
  lemma EntryBefore(s: St, s': St, t: Ref, i: nat)
    requires Clearing(s, s') && i < |Nodes(s'.heap, t)|
    ensures i < |Nodes(s.heap, t)| && NodeTrim(Nodes(s.heap, t)[i], Nodes(s'.heap, t)[i])
    ensures forall r :: IsStr(s'.heap, Obj(r)) <==> IsStr(s.heap, Obj(r))
    ensures Regular(s', t) <==> Regular(s, t)
    ensures Whites(s'.color) <= Whites(s.color)
  {
    TableTrim(s.heap, s'.heap, t);
    TrimStrings(s.heap, s'.heap);
    if t in s.heap { assert ObjTrim(s.heap[t], s'.heap[t]); }
  }

  lemma LateValue(s0: St, s2: St, s: St, r: Ref)
    requires MarkInv(s0, {}) && Clearing(s0, s) && Clearing(s0, s2) && Clearing(s2, s) && r in ListedValues(s2) && AllKeysCleared(s2, s2.allweak)
    ensures exists t :: LateIn(s0, s, t, r)
  {
    hide MarkInv, Clearing, Marked, IsStr, NodeTrim;
    var t :| t in s2.allweak && Regular(s2, t) && HasValue(s2.heap, t, r);
    ClearingFlags(s0, s2);
    StaysGray(s0, s, t);
    var i :| 0 <= i < |Nodes(s2.heap, t)| && Nodes(s2.heap, t)[i].val == Obj(r);
    EntryBefore(s0, s2, t, i);
    assert KeysCleared(s2, t);
    ClearingTrim(s2, s);
    var n, n' := Nodes(s0.heap, t)[i], Nodes(s2.heap, t)[i];
    assert n'.key == n.key && n'.val == n.val && !In(Whites(s.color), n.key) by { assert NodeTrim(n, n'); }
    assert LateAt(s0.heap, Whites(s.color), n, r);
    assert LateIn(s0, s, t, r);
  }

  lemma LateMarked(s0: St, s2: St, s: St, t: Ref, r: Ref)
    requires MarkInv(s0, {}) && NothingPending(s0) && Clearing(s0, s) && Clearing(s0, s2) && Clearing(s2, s) && TablesClear(s)
    requires ChangedIn(s0.heap, s2.heap, Whites(s0.color), Elements(s2.ephemeron) + Elements(s2.allweak), true)
    requires AllKeysCleared(s2, s2.allweak) && LateIn(s0, s, t, r)
    ensures r !in Whites(s.color)
  {
    hide MarkInv, NothingPending, Clearing, ChangedIn, TablesClear, AllKeysCleared, IsStr, Clear, DeadEmpty, ValueLost;
    var i :| 0 <= i < |Nodes(s0.heap, t)| && LateAt(s0.heap, Whites(s.color), Nodes(s0.heap, t)[i], r);
    TableMarked(s0, s, t);
    RegularPlace(s0, t);
    BoundMarked(s0);
    if t in s0.allweak {
      if Nodes(s0.heap, t)[i].key == Obj(r) { KeyMarked(s0, s2, s, t, i, r); } else { ValueMarked(s0, s, t, i, r); }
    } else {
      ClearEntry(s0, s, t, i);
    }
  }

  lemma TableMarked(s: St, s': St, t: Ref)
    requires Clearing(s, s') && Regular(s, t) && t in Marked(s'.color)
    ensures t in Marked(s.color)
  {
    assert t !in Whites(s'.color);
    assert !IsStr(s.heap, Obj(t));
  }

  lemma ClearEntry(s: St, s': St, t: Ref, i: nat)
    requires Clearing(s, s') && t in s.heap && s.heap[t].Table? && Clear(s.heap, s.upv, Whites(s.color), s.heap[t]) && DeadEmpty(s.heap[t].nodes)
    requires i < |Nodes(s.heap, t)| && !Nodes(s.heap, t)[i].val.Nil?
    ensures !In(Whites(s'.color), Nodes(s.heap, t)[i].key) && !In(Whites(s'.color), Nodes(s.heap, t)[i].val)
  {
    ClearingTrim(s, s');
    hide Clearing;
    assert NodeClear(Whites(s.color), s.heap[t].nodes[i]);
  }

  lemma KeyMarked(s0: St, s2: St, s: St, t: Ref, i: nat, r: Ref)
    requires Clearing(s0, s2) && Clearing(s2, s) && t in s0.allweak && t in s0.heap && s0.heap[t].Table?
    requires ChangedIn(s0.heap, s2.heap, Whites(s0.color), Elements(s2.ephemeron) + Elements(s2.allweak), true)
    requires AllKeysCleared(s2, s2.allweak) && i < |Nodes(s0.heap, t)| && !Nodes(s0.heap, t)[i].val.Nil?
    requires IsStr(s0.heap, Obj(r)) && Nodes(s0.heap, t)[i].key == Obj(r)
    ensures r !in Whites(s.color)
  {
    ClearingFlags(s0, s2);
    ClearingTrim(s0, s2);
    ClearingTrim(s2, s);
    TableTrim(s0.heap, s2.heap, t);
    TrimKeys0(s0.heap, s2.heap);
    hide Clearing, Trim;
    assert EntriesLost(s0.heap, Whites(s0.color), Nodes(s0.heap, t), Nodes(s2.heap, t), true);
    assert NodeTrim(Nodes(s0.heap, t)[i], Nodes(s2.heap, t)[i]);
    assert KeysCleared(s2, t);
  }

  lemma TrimKeys0(h: Heap, h': Heap)
    requires Trim(h, h')
    ensures h'.Keys == h.Keys
  {}

  lemma ValueMarked(s0: St, s: St, t: Ref, i: nat, r: Ref)
    requires Clearing(s0, s) && TablesClear(s) && Regular(s0, t) && t in Marked(s.color) && i < |Nodes(s0.heap, t)|
    requires LateAt(s0.heap, Whites(s.color), Nodes(s0.heap, t)[i], r) && Nodes(s0.heap, t)[i].val == Obj(r)
    requires t in s0.color && s0.color.Keys == s0.heap.Keys
    ensures r !in Whites(s.color)
  {
    ClearingLoses(s0, s, t);
    ClearingTrim(s0, s);
    TableTrim(s0.heap, s.heap, t);
    var n, n' := Nodes(s0.heap, t)[i], Nodes(s.heap, t)[i];
    assert ValueLost(s0.heap, Whites(s0.color), n.key) ==> ValueLost(s0.heap, Whites(s.color), n.key);
    hide Clearing, Trim;
    assert NodeTrim(n, n') && n'.val == n.val;
    assert ContentsClear(Whites(s.color), s.heap[t].arr, s.heap[t].nodes);
  }

  lemma PendingInside(s: St)
    requires NothingPending(s)
    ensures s.inside
  {}

  lemma ClearedPending(s: St, s': St)
    requires Clearing(s, s') && NothingPending(s) && AllEphClosed(s)
    ensures NothingPending(s') && AllEphClosed(s')
  {
    forall r | r in s'.ephemeron ensures EphClosed(s', r) {
      EphClosedKept(s, s', r);
    }
  }

  lemma ClearedValues(s: St, s': St, l: seq<Ref>)
    requires Clearing(s, s') && AllValuesCleared(s, l)
    ensures AllValuesCleared(s', l)
  {
    hide AllValuesCleared;
    AllClearedKept(s, s', l);
  }

  lemma ProgressCleared(s: St, s': St)
    requires Progress(s, s') && AllValuesCleared(s, s.weak) && AllValuesCleared(s, s.allweak)
    ensures AllValuesCleared(s', s.weak) && AllValuesCleared(s', s.allweak)
    ensures Suffix(s.weak, s'.weak) && Suffix(s.allweak, s'.allweak)
  {
    hide AllValuesCleared;
    AllClearedKept(s, s', s.weak);
    AllClearedKept(s, s', s.allweak);
  }

  // The objects that are marked.
  ghost function Marked(c: Colors): set<Ref> {
    set r | r in c && !c[r].White?
  }

  // 'b' is closed under strong references and under "key forces value". A string as a key
  // is a value: it does not have to be in 'b'.
  ghost predicate StrongEntry(h: Heap, b: set<Ref>, mode: Mode, n: Node) {
    n.val.Nil? ||
    match mode
    case Strong => InB(b, n.key) && InB(b, n.val)
    case WeakValues => InB(b, n.key)
    case Ephemeron => InB(b, n.key) || IsStr(h, n.key) ==> InB(b, n.val)
    case AllWeak => true
  }

  ghost predicate StrongObj(h: Heap, u: Upvals, b: set<Ref>, o: Object) {
    match o
    case Table(mt, mode, arr, nodes) =>
      && OptInB(b, mt) && (mode in {Strong, Ephemeron} ==> AllInB(b, arr))
      && forall i :: 0 <= i < |nodes| ==> StrongEntry(h, b, mode, nodes[i])
    case _ => ObjBound(h, u, b, o)
  }

  ghost predicate StrongClosed(h: Heap, u: Upvals, stuck: set<Ref>, b: set<Ref>) {
    forall r :: r in b && r in h && r !in stuck ==> StrongObj(h, u, b, h[r])
  }

  // Only the keys of empty entries are tagged dead.
  ghost predicate DeadEmpty(ns: seq<Node>) {
    forall i :: 0 <= i < |ns| && ns[i].dead ==> ns[i].val.Nil?
  }

  lemma DeadEmptyAt(s: St, r: Ref)
    requires MarkInv(s, {}) && r in s.heap && s.heap[r].Table?
    ensures DeadEmpty(s.heap[r].nodes)
  {
    assert ObjectWF(s.upv, r, s.heap[r]);
  }

  // An object that leads to no unmarked object leads to marked ones.
  lemma StrongFromClear(s: St, o: Object)
    requires Clear(s.heap, s.upv, Whites(s.color), o) && Clear(s.heap, s.upv, Missing(s.heap), o)
    requires s.color.Keys == s.heap.Keys && (o.Table? ==> DeadEmpty(o.nodes))
    ensures StrongObj(s.heap, s.upv, Marked(s.color), o)
  {
    if o.Table? {
      forall i | 0 <= i < |o.nodes| ensures StrongEntry(s.heap, Marked(s.color), o.mode, o.nodes[i]) {
        assert NodeClear(Missing(s.heap), o.nodes[i]) && NodeClear(Whites(s.color), o.nodes[i]);
      }
    }
  }

  lemma StrongFromTable(s: St, l: Loc, o: Object)
    requires o.Table? && GrayDone(Whites(s.color), l, o) && Clear(s.heap, s.upv, Missing(s.heap), o)
    requires s.color.Keys == s.heap.Keys && LocOk(l, o) && l != WorkL && (l == AllWeakL ==> o.mode.AllWeak?)
    requires l == EphL ==> EphClosedTo(s.heap, Whites(s.color), o.nodes, |o.nodes|)
    requires DeadEmpty(o.nodes)
    ensures StrongObj(s.heap, s.upv, Marked(s.color), o)
  {
    forall i | 0 <= i < |o.nodes| ensures StrongEntry(s.heap, Marked(s.color), o.mode, o.nodes[i]) {
      assert NodeClear(Missing(s.heap), o.nodes[i]);
      if l == EphL { assert EphEntry(s.heap, Whites(s.color), o.nodes[i]); }
    }
  }

  // After marking, the marked objects are closed: they are all that can be reached
  // without going through a weak reference or a stuck object.
  lemma MarkedClosed(s: St)
    requires MarkInv(s, {}) && NothingPending(s) && AllEphClosed(s) && ModesKept(s)
    ensures StrongClosed(s.heap, s.upv, s.stuck, Marked(s.color))
  {
    hide MarkInv, NothingPending, AllEphClosed, ModesKept, StrongObj;
    forall r | r in Marked(s.color) && r in s.heap && r !in s.stuck
      ensures StrongObj(s.heap, s.upv, Marked(s.color), s.heap[r])
    {
      MarkedObject(s, r);
    }
  }

  lemma MarkedObject(s: St, r: Ref)
    requires MarkInv(s, {}) && NothingPending(s) && AllEphClosed(s) && ModesKept(s)
    requires r in s.heap && r !in s.stuck && r in s.color && !s.color[r].White?
    ensures StrongObj(s.heap, s.upv, Marked(s.color), s.heap[r])
  {
    ChildExists(s, {}, r);
    BoundMarked(s);
    if s.heap[r].Table? { DeadEmptyAt(s, r); }
    if s.color[r].Black? {
      BlackClear(s, r);
      hide MarkInv, NothingPending, Clear;
      StrongFromClear(s, s.heap[r]);
    } else {
      GrayPlace(s, r);
      hide MarkInv, NothingPending;
      if s.heap[r].Table? {
        if s.loc[r] == EphL { assert EphClosed(s, r); }
        hide GrayDone, Clear, LocOk;
        StrongFromTable(s, s.loc[r], s.heap[r]);
      } else {
        StrongFromClear(s, s.heap[r]);
      }
    }
  }

  // The objects that are not in 'b'.
  ghost function Outside(s: St, b: set<Ref>): iset<Ref> {
    iset r: Ref | r in s.heap && r !in b
  }

  // 'b' holds what is marked, the values of flagged upvalues and everything that is strongly
  // reachable (in state s).
  ghost predicate Reached(s: St, b: set<Ref>, mainthread: Ref, running: Ref, registry: Value, mt: seq<Option<Ref>>) {
    && MarkedWithin(s.color, b) && UvsIn(s.heap, s.upv, b) && mainthread !in Outside(s, b) && RootsClear(Outside(s, b), running, registry, mt)
    && (ModesKept(s) ==> StrongClosed(s.heap, s.upv, s.stuck, b))
  }

  lemma MarkedOutside(s: St)
    requires MarkInv(s, {})
    ensures Outside(s, Marked(s.color)) == Whites(s.color)
  {
    assert s.color.Keys == s.heap.Keys;
  }

  // Marking has lost nothing, so what is closed after it was closed before.
  lemma StrongBefore(s: St, s': St, b: set<Ref>, r: Ref)
    requires HeapWF(s.heap, s.upv) && Settling(s, s', iset{}) && r in s.heap
    requires StrongObj(s'.heap, s'.upv, b, s'.heap[r])
    ensures StrongObj(s.heap, s.upv, b, s.heap[r])
  {
    var o, o' := s.heap[r], s'.heap[r];
    assert ObjTrim(o, o');
    match o
    case Table(_, mode, arr, nodes) =>
      assert TableLoses(s.heap, iset{}, o, o');
      TrimStrings(s.heap, s'.heap);
      forall i | 0 <= i < |nodes| ensures StrongEntry(s.heap, b, mode, nodes[i]) {
        assert StrongEntry(s'.heap, b, mode, o'.nodes[i]) && NodeTrim(nodes[i], o'.nodes[i]);
      }
    case LClosure(_, ids) =>
      forall i | 0 <= i < |ids| && ids[i].Some? ensures InB(b, UvValue(s.heap, s.upv, ids[i].value)) {
        TrimUvValue(s.heap, s.upv, s'.heap, s'.upv, ids[i].value);
      }
    case _ =>
  }

  lemma ReachedBefore(s: St, s': St, mainthread: Ref, running: Ref, registry: Value, mt: seq<Option<Ref>>)
    requires MarkInv(s, {}) && MarkInv(s', {}) && Settling(s, s', iset{}) && NothingPending(s') && FlagsMarked(s.upv, s')
    requires ModesKept(s) ==> StrongClosed(s'.heap, s'.upv, s'.stuck, Marked(s'.color))
    requires mainthread !in Whites(s'.color) && RootsClear(Whites(s'.color), running, registry, mt)
    ensures Reached(s, Marked(s'.color), mainthread, running, registry, mt)
    ensures Outside(s, Marked(s'.color)) == Whites(s'.color)
  {
    hide MarkInv, Settling, Marked, RootsClear, StrongClosed, StrongObj, Outside, Whites, ModesKept, UvsIn, FlagsMarked, NothingPending;
    var b := Marked(s'.color);
    FlagsReached(s, s');
    MarkedOutside(s');
    OutsideBack(s, s', b);
    MarkedSelf(s'.color);
    WellFormedHeap(s);
    ReachedStrong(s, s', b);
  }

  // After marking, the values of flagged upvalues are marked.
  lemma FlagsReached(s: St, s': St)
    requires MarkInv(s, {}) && MarkInv(s', {}) && Settling(s, s', iset{}) && NothingPending(s') && FlagsMarked(s.upv, s')
    ensures UvsIn(s.heap, s.upv, Marked(s'.color))
  {
    WellFormedHeap(s);
    BoundMarked(s');
    SettlingKeys(s, s');
    forall id | id in s.upv && s.upv[id].Open? && s.upv[id].touched ensures InB(Marked(s'.color), UvValue(s.heap, s.upv, id)) {
      FlagReached(s, s', id);
    }
  }

  lemma FlagReached(s: St, s': St, id: UvId)
    requires MarkInv(s, {}) && MarkInv(s', {}) && Settling(s, s', iset{}) && NothingPending(s') && FlagsMarked(s.upv, s')
    requires id in s.upv && s.upv[id].Open? && s.upv[id].touched
    ensures InB(Marked(s'.color), UvValue(s.heap, s.upv, id))
  {
    hide Marked;
    WellFormedHeap(s);
    OpenExists(s, id);
    BoundMarked(s');
    SettlingKeys(s, s');
    TrimUvValue(s.heap, s.upv, s'.heap, s'.upv, id);
    var th := s'.upv[id].thread;
    if th in s'.heap && s'.heap[th].Thread? && !IsWhite(s'.color, th) { ThreadClear(s', th); }
    hide MarkInv, Settling, NothingPending;
    MarkedExists(s', UvValue(s.heap, s.upv, id));
  }

  lemma MarkedExists(s: St, v: Value)
    requires s.color.Keys == s.heap.Keys && !In(Whites(s.color), v) && !In(Missing(s.heap), v)
    ensures InB(Marked(s.color), v)
  {}

  lemma OpenExists(s: St, id: UvId)
    requires MarkInv(s, {}) && id in s.upv && s.upv[id].Open?
    ensures !In(Missing(s.heap), UvValue(s.heap, s.upv, id))
  {
    assert UvWF(s.heap, id, s.upv[id]);
    ChildExists(s, {}, s.upv[id].thread);
  }

  lemma ThreadClear(s: St, th: Ref)
    requires MarkInv(s, {}) && NothingPending(s) && th in s.heap && s.heap[th].Thread? && !IsWhite(s.color, th)
    ensures NoneIn(Whites(s.color), s.heap[th].stack)
  {
    ThreadColor(s, th);
    GrayPlace(s, th);
    hide MarkInv, NothingPending;
  }

  lemma ThreadColor(s: St, th: Ref)
    requires MarkInv(s, {}) && th in s.heap && s.heap[th].Thread? && !IsWhite(s.color, th)
    ensures th in s.color && s.color[th].Gray? && th !in s.stuck
  {
    hide GrayInv, BoundClosed, MarkedWithin, Lists, TwupsOk, Exist, HeapWF;
  }

  lemma WellFormedHeap(s: St)
    requires MarkInv(s, {})
    ensures HeapWF(s.heap, s.upv)
  {}

  lemma MarkedSelf(c: Colors)
    ensures MarkedWithin(c, Marked(c))
  {}

  // What is marked was not lost by marking more.
  lemma OutsideBack(s: St, s': St, b: set<Ref>)
    requires Settling(s, s', iset{})
    ensures Outside(s, b) == Outside(s', b) && (MarkedWithin(s'.color, b) ==> MarkedWithin(s.color, b))
  {
    assert Outside(s, b) == Outside(s', b);
    hide Trim, SameUpvals, LosesOnly, Emptied;
    if MarkedWithin(s'.color, b) {
      forall r | r in s.color && !s.color[r].White? ensures r in b { assert r !in Whites(s'.color); }
    }
  }

  lemma ReachedStrong(s: St, s': St, b: set<Ref>)
    requires HeapWF(s.heap, s.upv) && Settling(s, s', iset{})
    requires ModesKept(s) ==> StrongClosed(s'.heap, s'.upv, s'.stuck, b)
    ensures ModesKept(s) ==> StrongClosed(s.heap, s.upv, s.stuck, b)
  {
    hide Settling, StrongObj, ModesKept;
    if ModesKept(s) {
      forall r | r in b && r in s.heap && r !in s.stuck ensures StrongObj(s.heap, s.upv, b, s.heap[r]) {
        SettlingKeys(s, s');
        StrongBefore(s, s', b, r);
      }
    }
  }

  lemma ConvergedSettling(s: St, s': St)
    requires Progress(s, s') && !s.clearing
    ensures Settling(s, s', iset{})
  {
    ProgressSettling(s, s');
    assert Losable(s) == iset{};
  }

  lemma SettlingKeys(s: St, s': St)
    requires Settling(s, s', iset{})
    ensures s'.heap.Keys == s.heap.Keys && s'.stuck == s.stuck
  {}

  // The values of all-weak tables in b that are not stuck are marked.
  ghost predicate EarlyClear(s: St, b: set<Ref>) {
    forall t :: t in b && Regular(s, t) ==> ValsClear(Whites(s.color), s.heap[t].nodes)
  }

  // Entries have only been lost from tables in b, for a value that is not.
  ghost predicate EarlyLost(s0: St, s: St, b: set<Ref>) {
    forall t :: t in s0.heap ==> EntriesLost(s0.heap, if t in b then Outside(s0, b) else iset{}, Nodes(s0.heap, t), Nodes(s.heap, t), false)
  }

  // The first clearing, of values: besides b only strings have been marked, and within the
  // bound there are besides what was there only the strings that are such values.
  ghost predicate EarlyDone(s0: St, s: St, b: set<Ref>) {
    && b <= s0.bound <= s.bound && EarlyClear(s, b) && EarlyLost(s0, s, b)
    && (forall r :: r in s.bound ==> r in s0.bound || exists t :: t in b && Regular(s0, t) && HasValue(s0.heap, t, r))
    && forall r :: r in Outside(s0, b) ==> IsStr(s0.heap, Obj(r)) || r in Whites(s.color)
  }

  // Up to the first clearing of values from weak tables. 'b' are the objects that
  // strong marking has reached.
  method MarkReachable(g: GlobalState) returns (ghost b: set<Ref>)
    requires !g.clearing && g.gcstate == InsideAtomic && g.inside && !g.remarked && g.gray == [] && g.work == [] && g.again == g.grayagain
    requires RootsIn(g.bound, g.running, g.registry, g.mt) && UvsIn(g.heap, g.upv, g.bound) && LooseIn(g.View())
    requires g.mainthread !in Whites(g.color) && AllInTwups(g.heap, g.twups) && MarkInv(g.View(), {})
    modifies g`heap, g`upv, g`color, g`gray, g`loc, g`grayagain, g`again, g`weak, g`ephemeron, g`allweak, g`twups, g`work, g`bound, g`remarked, g`clearing
    ensures g.TraversalPhase() && g.gray == [] && g.again == [] && g.work == [] && g.clearing
    ensures AllValuesCleared(g.View(), g.weak) && AllValuesCleared(g.View(), g.allweak) && LooseIn(g.View())
    ensures Reached(old(g.View()), b, g.mainthread, g.running, g.registry, g.mt)
    ensures Whites(g.color) <= Outside(old(g.View()), b) && Settling(old(g.View()), g.View(), Outside(old(g.View()), b))
    ensures (ModesKept(old(g.View())) ==> Spared(old(g.View()), g.View(), b)) && EarlyDone(old(g.View()), g.View(), b)
    ensures MarkInv(g.View(), {})
  {
    hide MarkInv, Settling, Progress, Clearing, RootsClear, RootsIn, UvsIn, LooseIn, AllValuesCleared, Reached, ModesKept, StrongClosed, Marked, Outside, FlagsMarked, NothingPending, Spared, Whites, AllInTwups, EarlyDone;
    ghost var s0 := g.View();
    MarkStrong(g);
    // strong marking is complete
    ghost var s1 := g.View();
    SettlingWhites(s0, s1, iset{});
    ReachedBefore(s0, s1, g.mainthread, g.running, g.registry, g.mt);
    b := Marked(g.color);
    ClearEarly(g, s0);
  }

  // The first clearing.
  method ClearEarly(g: GlobalState, ghost s0: St)
    requires g.inside && Settling(s0, g.View(), iset{}) && LooseIn(s0) && g.bound == s0.bound && NothingPending(g.View())
    requires Outside(s0, Marked(g.color)) == Whites(g.color) && MarkInv(g.View(), {})
    modifies g`heap, g`color, g`gray, g`loc, g`bound, g`clearing
    ensures g.gray == old(g.gray) && g.clearing && LooseIn(g.View())
    ensures AllValuesCleared(g.View(), g.weak) && AllValuesCleared(g.View(), g.allweak)
    ensures Whites(g.color) <= old(Whites(g.color)) && Settling(s0, g.View(), old(Whites(g.color)))
    ensures (ModesKept(s0) ==> Spared(s0, g.View(), Marked(old(g.color)))) && EarlyDone(s0, g.View(), Marked(old(g.color)))
    ensures MarkInv(g.View(), {})
  {
    hide MarkInv, Settling, Clearing, LooseIn, AllValuesCleared, ModesKept, Marked, Outside, NothingPending, Spared, ChangedIn, Whites, EarlyDone, ValuesIn, ListedValues;
    ghost var s1 := g.View();
    g.clearing := true;
    ghost var s2 := g.View();
    ClearingFlag(s0, s1, s2);
    AddValues(g);
    ghost var s3 := g.View();
    FirstReady(s0, s2, s3);
    ClearFirst(g);
    FirstCleared(s0, s2, s3, g.View());
  }

  lemma FirstReady(s0: St, s2: St, s3: St)
    requires Settling(s0, s2, iset{}) && LooseIn(s0) && s2.bound == s0.bound && s3 == s2.(bound := s3.bound) && s2.bound <= s3.bound
    ensures LooseIn(s3)
  {
    hide Settling, LooseIn;
    LooseSettling(s0, s2, iset{});
    LooseWide(s2, s3.bound);
  }

  lemma FirstCleared(s0: St, s2: St, s: St, s': St)
    requires MarkInv(s2, {}) && s2.inside && Settling(s0, s2, iset{}) && s2.bound == s0.bound && Outside(s0, Marked(s2.color)) == Whites(s2.color)
    requires s == s2.(bound := s2.bound + ListedValues(s2)) && s'.bound == s.bound && Clearing(s, s') && LooseIn(s)
    requires ChangedIn(s.heap, s'.heap, Whites(s.color), Elements(s.weak) + Elements(s.allweak), false)
    requires MarkInv(s', {}) && NothingPending(s2) && AllValuesCleared(s', s'.allweak)
    ensures Settling(s0, s', Whites(s.color)) && Whites(s'.color) <= Whites(s.color) && LooseIn(s') && EarlyDone(s0, s', Marked(s2.color))
    ensures ModesKept(s0) ==> Spared(s0, s', Marked(s2.color))
    ensures s'.gray == s.gray && s'.again == s.again && s'.work == s.work && s'.clearing && s'.inside == s.inside && s'.remarked == s.remarked
  {
    hide MarkInv, Settling, Clearing, LooseIn, ChangedIn, ModesKept, Spared, AllValuesCleared, NothingPending, EarlyDone, Marked, Outside, ListedValues, Whites;
    ClearingWide(s2, s, s');
    LooseClearing(s, s');
    FirstSparedAll(s0, s2, s');
    ClearingSettling(s2, s');
    SettlingWhites(s2, s', Whites(s2.color));
    SettlingTransitive(s0, s2, s', Whites(s2.color), iset{});
    EarlyAll(s0, s2, s');
  }

  lemma ClearingWide(s2: St, s: St, s': St)
    requires s == s2.(bound := s.bound) && s2.bound <= s.bound && Clearing(s, s')
    ensures Clearing(s2, s') && s'.gray == s.gray && s'.again == s.again && s'.work == s.work && s'.clearing && s'.inside == s.inside && s'.remarked == s.remarked
  {}

  lemma EarlyAll(s0: St, s: St, s': St)
    requires MarkInv(s, {}) && Settling(s0, s, iset{}) && s.bound == s0.bound && Outside(s0, Marked(s.color)) == Whites(s.color)
    requires Clearing(s, s') && s'.bound == s.bound + ListedValues(s) && MarkInv(s', {}) && NothingPending(s) && AllValuesCleared(s', s'.allweak)
    requires ChangedIn(s.heap, s'.heap, Whites(s.color), Elements(s.weak) + Elements(s.allweak), false)
    ensures EarlyDone(s0, s', Marked(s.color))
  {
    hide MarkInv, Clearing, NothingPending, AllValuesCleared, ChangedIn, Settling, ListedValues, Marked, Outside, Whites, EntriesLost, HasValue, ValsClear, IsStr;
    var b := Marked(s.color);
    EarlyBound(s0, s, s');
    EarlyStrings(s0, s, s');
    forall t | t in b && Regular(s', t) ensures ValsClear(Whites(s'.color), s'.heap[t].nodes) { EarlyClearAt(s, s', t); }
    forall t | t in s0.heap
      ensures EntriesLost(s0.heap, if t in b then Outside(s0, b) else iset{}, Nodes(s0.heap, t), Nodes(s'.heap, t), false)
    {
      EarlyLostAt(s0, s, s', t);
    }
  }

  lemma EarlyStrings(s0: St, s: St, s': St)
    requires Settling(s0, s, iset{}) && Clearing(s, s') && Outside(s0, Marked(s.color)) == Whites(s.color)
    ensures forall r :: r in Outside(s0, Marked(s.color)) ==> IsStr(s0.heap, Obj(r)) || r in Whites(s'.color)
  {
    TrimStrings(s0.heap, s.heap);
    hide Trim, IsStr, Marked, Outside;
  }

  lemma EarlyBound(s0: St, s: St, s': St)
    requires MarkInv(s, {}) && Settling(s0, s, iset{}) && s.bound == s0.bound && s'.bound == s.bound + ListedValues(s)
    ensures Marked(s.color) <= s0.bound <= s'.bound
    ensures forall r :: r in s'.bound ==> r in s0.bound || exists t :: t in Marked(s.color) && Regular(s0, t) && HasValue(s0.heap, t, r)
  {
    BoundMarked(s);
    ListedTables(s);
    hide MarkInv;
    forall r | r in ListedValues(s) ensures exists t :: t in Marked(s.color) && Regular(s0, t) && HasValue(s0.heap, t, r) {
      var t :| t in s.allweak && Regular(s, t) && HasValue(s.heap, t, r);
      ValueBefore(s0, s, t, r);
      assert t in Marked(s.color);
    }
  }

  lemma ValueBefore(s0: St, s: St, t: Ref, r: Ref)
    requires Settling(s0, s, iset{}) && Regular(s, t) && HasValue(s.heap, t, r)
    ensures Regular(s0, t) && HasValue(s0.heap, t, r)
  {
    TableTrim(s0.heap, s.heap, t);
    TrimStrings(s0.heap, s.heap);
    assert ObjTrim(s0.heap[t], s.heap[t]);
    var i :| 0 <= i < |Nodes(s.heap, t)| && Nodes(s.heap, t)[i].val == Obj(r);
    assert NodeTrim(Nodes(s0.heap, t)[i], Nodes(s.heap, t)[i]);
  }

  lemma EarlyClearAt(s: St, s': St, t: Ref)
    requires MarkInv(s, {}) && NothingPending(s) && Clearing(s, s') && AllValuesCleared(s', s'.allweak) && t in Marked(s.color) && Regular(s', t)
    ensures ValsClear(Whites(s'.color), s'.heap[t].nodes)
  {
    RegularBefore(s, s', t);
    RegularPlace(s, t);
    ClearingFlags(s, s');
    if t in s.allweak {
      assert ValuesCleared(s', t);
    } else {
      hide MarkInv, NothingPending, AllValuesCleared;
      ValuesStayClear(s, s', t);
    }
  }

  lemma RegularBefore(s: St, s': St, t: Ref)
    requires Clearing(s, s') && Regular(s', t)
    ensures Regular(s, t)
  {
    assert ObjTrim(s.heap[t], s'.heap[t]);
  }

  lemma ValuesStayClear(s: St, s': St, t: Ref)
    requires Clearing(s, s') && Regular(s, t) && Clear(s.heap, s.upv, Whites(s.color), s.heap[t]) && t in s'.heap && s'.heap[t].Table?
    ensures ValsClear(Whites(s'.color), s'.heap[t].nodes)
  {
    ClearingTrim(s, s');
    TableTrim(s.heap, s'.heap, t);
    hide Clearing, Trim;
    var ns, ns' := s.heap[t].nodes, s'.heap[t].nodes;
    forall i | 0 <= i < |ns'| ensures !In(Whites(s'.color), ns'[i].val) { assert NodeClear(Whites(s.color), ns[i]) && NodeTrim(ns[i], ns'[i]); }
  }

  lemma EarlyLostAt(s0: St, s: St, s': St, t: Ref)
    requires Settling(s0, s, iset{}) && Clearing(s, s') && MarkInv(s, {}) && Outside(s0, Marked(s.color)) == Whites(s.color) && t in s0.heap
    requires ChangedIn(s.heap, s'.heap, Whites(s.color), Elements(s.weak) + Elements(s.allweak), false)
    ensures EntriesLost(s0.heap, if t in Marked(s.color) then Outside(s0, Marked(s.color)) else iset{}, Nodes(s0.heap, t), Nodes(s'.heap, t), false)
  {
    hide MarkInv, Settling, Clearing, IsStr, Trim, GrayTables;
    EarlyChanged(s0, s, s', t);
    NothingLost(s0, s, t);
  }

  lemma EarlyChanged(s0: St, s: St, s': St, t: Ref)
    requires Settling(s0, s, iset{}) && Clearing(s, s') && MarkInv(s, {}) && t in s0.heap
    requires ChangedIn(s.heap, s'.heap, Whites(s.color), Elements(s.weak) + Elements(s.allweak), false)
    ensures t in s.heap && t in s'.heap && forall v: Value :: IsStr(s.heap, v) <==> IsStr(s0.heap, v)
    ensures if t in Marked(s.color) then EntriesLost(s.heap, Whites(s.color), Nodes(s.heap, t), Nodes(s'.heap, t), false) else s'.heap[t] == s.heap[t]
  {
    hide MarkInv, Clearing, IsStr, LosesOnly, Emptied, ListedKeeps, FlagsServed, SameUpvals;
    ListedTables(s);
    TrimStrings(s0.heap, s.heap);
    ClearingTrim(s, s');
    TrimKeys0(s.heap, s'.heap);
    TrimKeys0(s0.heap, s.heap);
    hide Settling, Trim;
    if t in s.weak || t in s.allweak { assert t in Marked(s.color); }
  }

  lemma NothingLost(s0: St, s: St, t: Ref)
    requires Settling(s0, s, iset{}) && t in s0.heap
    ensures |Nodes(s.heap, t)| == |Nodes(s0.heap, t)| && forall i :: 0 <= i < |Nodes(s0.heap, t)| ==> Nodes(s.heap, t)[i].val == Nodes(s0.heap, t)[i].val && Nodes(s.heap, t)[i].key == Nodes(s0.heap, t)[i].key
  {
    TableTrim(s0.heap, s.heap, t);
    var ns, ns' := Nodes(s0.heap, t), Nodes(s.heap, t);
    if s0.heap[t].Table? { assert TableLoses(s0.heap, iset{}, s0.heap[t], s.heap[t]); }
    forall i | 0 <= i < |ns| ensures ns'[i].val == ns[i].val && ns'[i].key == ns[i].key { assert NodeTrim(ns[i], ns'[i]); }
  }

  lemma FirstSparedAll(s0: St, s: St, s': St)
    requires MarkInv(s, {}) && s.inside && Settling(s0, s, iset{}) && Clearing(s, s')
    requires ChangedIn(s.heap, s'.heap, Whites(s.color), Elements(s.weak) + Elements(s.allweak), false)
    ensures ModesKept(s0) ==> Spared(s0, s', Marked(s.color))
  {
    hide MarkInv, Settling, Clearing, ChangedIn, ModesKept, Spared, Marked;
    if ModesKept(s0) {
      SettlingModes(s0, s);
      FirstSpared(s, s');
      SparedBefore(s0, s, s', Marked(s.color));
    }
  }

  lemma LooseSettling(s: St, s': St, W: iset<Ref>)
    requires Settling(s, s', W) && LooseIn(s) && s'.bound == s.bound
    ensures LooseIn(s')
  {
    hide LooseIn, Trim, ListedKeeps;
    LooseKept(s, s');
  }

  lemma LooseClearing(s: St, s': St)
    requires Clearing(s, s') && LooseIn(s)
    ensures LooseIn(s')
  {
    hide LooseIn, Trim;
    LooseKept(s, s');
  }

  lemma ClearingFlag(s0: St, s: St, s': St)
    requires Settling(s0, s, iset{}) && MarkInv(s, {}) && s' == s.(clearing := true)
    ensures Settling(s0, s', iset{}) && MarkInv(s', {}) && (NothingPending(s) ==> NothingPending(s'))
  {
    hide HeapWF, Exist, LocsOk, NoDead, FixedOk, TwupsOk, StuckOk, BlackInv, GrayInv, BoundClosed, MarkedWithin, ListIs, AllWeakIs;
  }

  // From the separation of objects to be finalized on.
  method MarkResurrected(g: GlobalState)
    requires g.TraversalPhase() && g.gcstate == InsideAtomic && g.gray == [] && g.again == [] && g.work == [] && g.clearing
    requires AllIn(g.finobj, g.bound) && AllIn(g.tobefnz, g.bound) && LooseIn(g.View())
    requires AllValuesCleared(g.View(), g.weak) && AllValuesCleared(g.View(), g.allweak)
    requires MarkInv(g.View(), {})
    modifies g`heap, g`upv, g`color, g`gray, g`loc, g`grayagain, g`again, g`weak, g`ephemeron, g`allweak, g`twups, g`work, g`bound, g`finobj, g`tobefnz, g`clearing
    ensures NothingPending(g.View()) && Cleared(g.View()) && NoneOf(Whites(g.color), g.tobefnz) && LateDone(old(g.View()), g.View())
    ensures Separated(old(g.color), old(g.finobj), old(g.tobefnz), g.finobj, g.tobefnz)
    ensures Settling(old(g.View()), g.View(), old(Whites(g.color))) && Finished(old(g.View()), g.View())
    ensures MarkInv(g.View(), {})
  {
    hide MarkInv, Settling, Progress, Clearing, Cleared, AllEphClosed, AllValuesCleared, AllIn, NoneOf, Suffix, LooseIn, NothingPending, Finished, Separated, LateDone;
    ghost var s0 := g.View();
    var origweak, origall := g.weak, g.allweak;
    ResurrectAll(g);
    ghost var s1 := g.View();
    SettlingWhites(s0, s1, iset{});
    ClearWeak(g, origweak, origall);
    ClearingSettling(s1, g.View());
    LateBefore(s0, s1, g.View());
    SettlingMore(s1, g.View(), Whites(s1.color), Whites(s0.color));
    SettlingTransitive(s0, s1, g.View(), Whites(s0.color), iset{});
    SettlingNone(s1, g.View(), Whites(s1.color), g.tobefnz);
    FinishedClearing(s0, s1, g.View());
  }

  // Resurrection takes nothing out of a table.
  lemma LateBefore(s0: St, s: St, s': St)
    requires Settling(s0, s, iset{}) && LateDone(s, s') && s.bound == s0.bound
    ensures LateDone(s0, s')
  {
    forall t, r ensures LateIn(s, s', t, r) <==> LateIn(s0, s', t, r) {
      LateSame(s0, s, s', t, r);
    }
    LateLostBefore(s0, s, s');
    hide Settling, LateIn, LateLost;
    forall r | r in s'.bound && r !in s0.bound ensures exists t :: LateIn(s0, s', t, r) {
      var t :| LateIn(s, s', t, r);
      assert LateIn(s0, s', t, r);
    }
  }

  lemma LateLostBefore(s0: St, s: St, s': St)
    requires Settling(s0, s, iset{}) && LateLost(s, s')
    ensures LateLost(s0, s')
  {
    TrimStrings(s0.heap, s.heap);
    TrimKeys0(s0.heap, s.heap);
    hide IsStr, Settling;
    forall t | t in s0.heap ensures NodesLose(s0.heap, Whites(s'.color), Nodes(s0.heap, t), Nodes(s'.heap, t)) {
      NothingLost(s0, s, t);
      assert NodesLose(s.heap, Whites(s'.color), Nodes(s.heap, t), Nodes(s'.heap, t));
    }
  }

  lemma LateSame(s0: St, s: St, s': St, t: Ref, r: Ref)
    requires Settling(s0, s, iset{})
    ensures LateIn(s, s', t, r) <==> LateIn(s0, s', t, r)
  {
    TrimStrings(s0.heap, s.heap);
    RegularSame(s0, s, iset{}, t);
    if t in s0.heap { NothingLost(s0, s, t); }
    hide Settling, IsStr, Marked;
    forall i | 0 <= i < |Nodes(s0.heap, t)| && t in s0.heap
      ensures LateAt(s0.heap, Whites(s'.color), Nodes(s0.heap, t)[i], r) <==> LateAt(s.heap, Whites(s'.color), Nodes(s.heap, t)[i], r)
    {}
    if LateIn(s, s', t, r) {
      var i :| 0 <= i < |Nodes(s.heap, t)| && LateAt(s.heap, Whites(s'.color), Nodes(s.heap, t)[i], r);
      assert LateAt(s0.heap, Whites(s'.color), Nodes(s0.heap, t)[i], r);
    }
    if LateIn(s0, s', t, r) {
      var i :| 0 <= i < |Nodes(s0.heap, t)| && LateAt(s0.heap, Whites(s'.color), Nodes(s0.heap, t)[i], r);
      assert LateAt(s.heap, Whites(s'.color), Nodes(s.heap, t)[i], r);
    }
  }

  lemma RegularSame(s: St, s': St, W: iset<Ref>, t: Ref)
    requires Settling(s, s', W)
    ensures Regular(s', t) <==> Regular(s, t)
    ensures t in s'.heap <==> t in s.heap
  {
    if t in s.heap { assert ObjTrim(s.heap[t], s'.heap[t]); }
  }

  // What finalizers may use is marked, too; nothing is cleared meanwhile.
  method ResurrectAll(g: GlobalState)
    requires g.TraversalPhase() && g.gcstate == InsideAtomic && g.gray == [] && g.again == [] && g.work == [] && g.clearing
    requires AllIn(g.finobj, g.bound) && AllIn(g.tobefnz, g.bound) && LooseIn(g.View())
    requires AllValuesCleared(g.View(), g.weak) && AllValuesCleared(g.View(), g.allweak)
    requires MarkInv(g.View(), {})
    modifies g`heap, g`upv, g`color, g`gray, g`loc, g`grayagain, g`again, g`weak, g`ephemeron, g`allweak, g`twups, g`work, g`bound, g`finobj, g`tobefnz, g`clearing
    ensures NothingPending(g.View()) && AllEphClosed(g.View()) && NoneOf(Whites(g.color), g.tobefnz) && g.bound == old(g.bound) && g.clearing
    ensures Suffix(old(g.weak), g.weak) && Suffix(old(g.allweak), g.allweak) && LooseIn(g.View())
    ensures AllValuesCleared(g.View(), old(g.weak)) && AllValuesCleared(g.View(), old(g.allweak))
    ensures Separated(old(g.color), old(g.finobj), old(g.tobefnz), g.finobj, g.tobefnz)
    ensures Settling(old(g.View()), g.View(), iset{}) && Finished(old(g.View()), g.View())
    ensures MarkInv(g.View(), {})
  {
    hide MarkInv, Settling, Progress, AllEphClosed, AllValuesCleared, AllIn, NoneOf, Suffix, LooseIn, Finished;
    ghost var s0 := g.View();
    g.clearing := false;
    ghost var s1 := g.View();
    ClearingOff(s0, s1);
    Resurrect(g);
    ghost var s2 := g.View();
    ProgressCleared(s1, s2);
    ConvergedSettling(s1, s2);
    ProgressAgain(s1, s2);
    g.clearing := true;
    ClearingOn(s0, s1, s2, g.View());
    ResurrectedClosed(s0, g.View());
  }

  lemma ClearingOff(s: St, s': St)
    requires s' == s.(clearing := false) && MarkInv(s, {}) && LooseIn(s)
    requires AllValuesCleared(s, s.weak) && AllValuesCleared(s, s.allweak)
    ensures MarkInv(s', {}) && LooseIn(s') && AllValuesCleared(s', s'.weak) && AllValuesCleared(s', s'.allweak)
  {
    hide HeapWF, Exist, LocsOk, NoDead, FixedOk, TwupsOk, StuckOk, BlackInv, GrayInv, BoundClosed, MarkedWithin, ListIs, AllWeakIs;
    TrimReflexive(s.heap);
    AllClearedKept(s, s', s.weak);
    AllClearedKept(s, s', s.allweak);
    hide AllValuesCleared;
  }

  lemma ClearingOn(s0: St, s1: St, s2: St, s: St)
    requires s1 == s0.(clearing := false) && s == s2.(clearing := true) && MarkInv(s2, {}) && AllEphClosed(s2) && LooseIn(s1)
    requires Settling(s1, s2, iset{}) && s2.bound == s1.bound
    requires AllValuesCleared(s2, s1.weak) && AllValuesCleared(s2, s1.allweak)
    ensures MarkInv(s, {}) && LooseIn(s) && AllEphClosed(s) && Settling(s0, s, iset{})
    ensures AllValuesCleared(s, s0.weak) && AllValuesCleared(s, s0.allweak)
  {
    hide HeapWF, Exist, LocsOk, NoDead, FixedOk, TwupsOk, StuckOk, BlackInv, GrayInv, BoundClosed, MarkedWithin, ListIs, AllWeakIs;
    TrimReflexive(s.heap);
    AllClearedKept(s2, s, s0.weak);
    AllClearedKept(s2, s, s0.allweak);
    LooseSettling(s1, s2, iset{});
    forall r | r in s.ephemeron ensures EphClosed(s, r) { assert EphClosed(s2, r); }
    hide AllValuesCleared, EphClosed;
  }

  // Every reference that was strong in s0 has been followed, with the objects that are
  // marked in the end.
  ghost predicate Finished(s0: St, s: St) {
    ModesKept(s0) ==> StrongClosed(s0.heap, s0.upv, s0.stuck, Marked(s.color))
  }

  lemma ResurrectedClosed(s0: St, s: St)
    requires MarkInv(s0, {}) && Settling(s0, s, iset{}) && MarkInv(s, {}) && NothingPending(s) && AllEphClosed(s)
    ensures Finished(s0, s)
  {
    hide MarkInv, Settling, NothingPending, AllEphClosed, ModesKept, StrongClosed, Marked;
    if ModesKept(s0) {
      SettlingModes(s0, s);
      MarkedClosed(s);
      WellFormedHeap(s0);
      ReachedStrong(s0, s, Marked(s.color));
    }
  }

  // Clearing only marks strings, which lead nowhere.
  lemma FinishedClearing(s0: St, s: St, s': St)
    requires Finished(s0, s) && Settling(s0, s, iset{}) && Clearing(s, s')
    ensures Finished(s0, s')
  {
    hide ModesKept;
    if ModesKept(s0) {
      var b, b' := Marked(s.color), Marked(s'.color);
      TrimStrings(s0.heap, s.heap);
      assert forall r :: r in b' ==> r in b || IsStr(s0.heap, Obj(r));
      assert b <= b' by { forall r | r in b ensures r in b' { StaysMarked(s.color, s'.color, r); } }
      hide Settling, Clearing, IsStr, Marked;
      StrongMore(s0.heap, s0.upv, s0.stuck, b, b');
    }
  }

  lemma StrongMore(h: Heap, u: Upvals, stuck: set<Ref>, b: set<Ref>, b': set<Ref>)
    requires StrongClosed(h, u, stuck, b) && b <= b' && forall r :: r in b' ==> r in b || IsStr(h, Obj(r))
    ensures StrongClosed(h, u, stuck, b')
  {
    forall r | r in b' && r in h && r !in stuck ensures StrongObj(h, u, b', h[r]) {
      if r in b {
        match h[r]
        case Table(_, mode, _, nodes) =>
          forall i | 0 <= i < |nodes| ensures StrongEntry(h, b', mode, nodes[i]) { assert StrongEntry(h, b, mode, nodes[i]); }
        case _ =>
      }
    }
  }

  lemma SettlingMore(s: St, s': St, W: iset<Ref>, W': iset<Ref>)
    requires Settling(s, s', W) && W <= W'
    ensures Settling(s, s', W')
  {
    LosesMore(s.heap, s'.heap, W, W');
  }

  // A wider bound, for the second half: it has the objects with finalizers, too.
  lemma Widen(s0: St, s: St, W: iset<Ref>, b: set<Ref>)
    requires MarkInv(s0, {}) && ClosedSet(s0, {}, b) && s0.bound <= b && Settling(s0, s, W)
    requires (forall r :: r in s.bound ==> r in s0.bound || IsStr(s0.heap, Obj(r))) && MarkInv(s, {})
    ensures MarkInv(s.(bound := b + s.bound), {})
  {
    hide MarkInv, ClosedSet, Settling;
    BoundMarked(s);
    WidenClosed(s0, s, W, b);
    Rebound(s, b + s.bound);
  }

  lemma WidenClosed(s0: St, s: St, W: iset<Ref>, b: set<Ref>)
    requires MarkInv(s0, {}) && ClosedSet(s0, {}, b) && s0.bound <= b && Settling(s0, s, W) && MarkedWithin(s.color, s.bound)
    requires forall r :: r in s.bound ==> r in s0.bound || IsStr(s0.heap, Obj(r))
    ensures ClosedSet(s, {}, b + s.bound)
  {
    WellFormedHeap(s0);
    hide MarkInv, LosesOnly, Emptied, ListedKeeps, FlagsServed, ModesKept, BoundClosed;
    BoundTrim(s0.heap, s0.upv, s.heap, s.upv, s0.stuck, b);
    TrimStrings(s0.heap, s.heap);
    StringsClosed(s.heap, s.upv, s.stuck, b, s.bound - b);
    assert b + (s.bound - b) == b + s.bound;
  }

  ghost method WidenBound(g: GlobalState, s0: St, W: iset<Ref>, wide: set<Ref>)
    requires MarkInv(s0, {}) && ClosedSet(s0, {}, wide) && s0.bound <= wide && Settling(s0, g.View(), W)
    requires (forall r :: r in g.bound ==> r in s0.bound || IsStr(s0.heap, Obj(r))) && LooseIn(g.View())
    requires AllValuesCleared(g.View(), g.weak) && AllValuesCleared(g.View(), g.allweak) && MarkInv(g.View(), {})
    modifies g`bound
    ensures g.bound == wide + old(g.bound) && LooseIn(g.View()) && Settling(s0, g.View(), W)
    ensures AllValuesCleared(g.View(), g.weak) && AllValuesCleared(g.View(), g.allweak) && MarkInv(g.View(), {})
  {
    hide MarkInv, Settling, LooseIn, AllValuesCleared, ClosedSet;
    ghost var s1 := g.View();
    LooseWide(s1, wide + g.bound);
    Widen(s0, s1, W, wide);
    g.bound := wide + g.bound;
    SettlingBound(s0, s1, g.View(), W);
    ClearedBound(s1, g.View());
  }

  lemma EarlyWithin(s0: St, s: St, b: set<Ref>)
    requires EarlyDone(s0, s, b)
    ensures forall r :: r in s.bound ==> r in s0.bound || IsStr(s0.heap, Obj(r))
  {
    hide EarlyClear, EarlyLost;
  }

  lemma AllInMore(rs: seq<Ref>, b: set<Ref>, b': set<Ref>)
    requires AllIn(rs, b) && b <= b'
    ensures AllIn(rs, b')
  {}

  // A string that an entry of an all-weak table has marked, before or after finalizable
  // objects were separated. W1 are the whites before that, but for strings.
  ghost predicate OriginAt(h: Heap, W1: iset<Ref>, W: iset<Ref>, early: bool, n: Node, r: Ref) {
    if early then IsStr(h, Obj(r)) && !n.val.Nil? && (n.val == Obj(r) || (n.key == Obj(r) && !ValueLost(h, W1, n.val)))
    else LateAt(h, W, n, r)
  }

  ghost predicate OriginIn(s0: St, b: set<Ref>, s: St, t: Ref, r: Ref) {
    && t in Marked(s.color) && Regular(s0, t)
    && exists i :: 0 <= i < |Nodes(s0.heap, t)| && OriginAt(s0.heap, Outside(s0, b), Whites(s.color), t in b, Nodes(s0.heap, t)[i], r)
  }

  // Entries have been lost early for a value that is not in b, or late for what is not marked
  // in the end.
  ghost predicate ExactLost(s0: St, b: set<Ref>, s: St, ns: seq<Node>, ns': seq<Node>, early: bool) {
    && |ns'| == |ns|
    && forall i :: 0 <= i < |ns| ==>
         ns'[i].val == ns[i].val || (early && ValueLost(s0.heap, Outside(s0, b), ns[i].val)) || EntryLost(s0.heap, Whites(s.color), ns[i])
  }

  // What is marked in the end, by what was there before: only objects of 'wide', and exactly
  // the strings that entries of all-weak tables have marked.
  ghost predicate Exact(s0: St, b: set<Ref>, s: St, wide: set<Ref>) {
    && b <= s0.bound && (forall t :: t in s0.heap ==> ExactLost(s0, b, s, Nodes(s0.heap, t), Nodes(s.heap, t), t in b)) && (forall r :: r in Marked(s.color) ==> r in wide || exists t :: OriginIn(s0, b, s, t, r))
    && forall t, r :: OriginIn(s0, b, s, t, r) ==> r !in Whites(s.color)
  }

  lemma ExactAll(s0: St, s1: St, s2: St, s: St, b: set<Ref>, wide: set<Ref>)
    requires EarlyDone(s0, s1, b) && s2 == s1.(bound := wide + s1.bound) && s0.bound <= wide && Settling(s0, s1, Outside(s0, b))
    requires LateDone(s2, s) && MarkInv(s, {}) && b * s0.heap.Keys <= Marked(s.color) && Whites(s.color) <= Whites(s1.color)
    ensures Exact(s0, b, s, wide)
  {
    hide MarkInv, Settling, EarlyDone, LateDone, OriginIn, LateIn, Outside, Whites, Marked, ExactLost;
    EarlyParts(s0, s1, b);
    forall t | t in s0.heap ensures ExactLost(s0, b, s, Nodes(s0.heap, t), Nodes(s.heap, t), t in b) { ExactLoses(s0, s1, s2, s, b, t); }
    forall r | r in Marked(s.color) && r !in wide ensures exists t :: OriginIn(s0, b, s, t, r) {
      ExactWithin(s0, s1, s2, s, b, wide, r);
    }
    forall t, r | OriginIn(s0, b, s, t, r) ensures r !in Whites(s.color) { ExactMarked(s0, s1, s2, s, b, t, r); }
  }

  lemma ExactLoses(s0: St, s1: St, s2: St, s: St, b: set<Ref>, t: Ref)
    requires EarlyDone(s0, s1, b) && s2 == s1.(bound := s2.bound) && Settling(s0, s1, Outside(s0, b)) && LateDone(s2, s) && t in s0.heap
    ensures ExactLost(s0, b, s, Nodes(s0.heap, t), Nodes(s.heap, t), t in b)
  {
    SettlingHeap(s0, s1, Outside(s0, b));
    SettlingTable(s0, s1, Outside(s0, b), t);
    assert NodesLose(s2.heap, Whites(s.color), Nodes(s2.heap, t), Nodes(s.heap, t));
    hide Settling, EarlyDone, LateDone, IsStr, Outside;
    forall i | 0 <= i < |Nodes(s0.heap, t)|
      ensures NodeTrim(Nodes(s0.heap, t)[i], Nodes(s1.heap, t)[i]) && forall v: Value :: IsStr(s1.heap, v) <==> IsStr(s0.heap, v)
      ensures Nodes(s1.heap, t)[i].val == Nodes(s0.heap, t)[i].val || (t in b && ValueLost(s0.heap, Outside(s0, b), Nodes(s0.heap, t)[i].val))
    {
      EarlyEntry(s0, s1, b, t, i);
    }
  }

  lemma ExactWithin(s0: St, s1: St, s2: St, s: St, b: set<Ref>, wide: set<Ref>, r: Ref)
    requires EarlyDone(s0, s1, b) && s2 == s1.(bound := wide + s1.bound) && s0.bound <= wide && Settling(s0, s1, Outside(s0, b))
    requires LateDone(s2, s) && MarkInv(s, {}) && b * s0.heap.Keys <= Marked(s.color) && r in Marked(s.color) && r !in wide
    ensures exists t :: OriginIn(s0, b, s, t, r)
  {
    BoundMarked(s);
    hide MarkInv, Settling, EarlyDone, LateDone, OriginIn, LateIn, Outside;
    EarlyParts(s0, s1, b);
    LateParts(s2, s);
    hide MarkedWithin;
    if r in s1.bound { ExactEarly(s0, s1, s, b, r); } else { ExactLate(s0, s1, s2, s, b, r); }
  }

  lemma EarlyParts(s0: St, s: St, b: set<Ref>)
    requires EarlyDone(s0, s, b)
    ensures b <= s0.bound <= s.bound
  {}

  lemma LateParts(s: St, s': St)
    requires LateDone(s, s')
    ensures forall r :: r in s'.bound ==> r in s.bound || exists t :: LateIn(s, s', t, r)
    ensures forall t, r :: LateIn(s, s', t, r) ==> r !in Whites(s'.color)
  {}

  lemma ExactEarly(s0: St, s1: St, s: St, b: set<Ref>, r: Ref)
    requires EarlyDone(s0, s1, b) && r in s1.bound && r !in s0.bound && b * s0.heap.Keys <= Marked(s.color)
    ensures exists t :: OriginIn(s0, b, s, t, r)
  {
    hide Outside, EarlyClear, EarlyLost, Marked;
    var t :| t in b && Regular(s0, t) && HasValue(s0.heap, t, r);
    var i :| 0 <= i < |Nodes(s0.heap, t)| && Nodes(s0.heap, t)[i].val == Obj(r);
    assert OriginAt(s0.heap, Outside(s0, b), Whites(s.color), t in b, Nodes(s0.heap, t)[i], r);
    assert OriginIn(s0, b, s, t, r);
  }

  // The entries before and after the first clearing.
  lemma EarlyEntry(s0: St, s1: St, b: set<Ref>, t: Ref, i: nat)
    requires EarlyDone(s0, s1, b) && Settling(s0, s1, Outside(s0, b)) && t in s0.heap && i < |Nodes(s0.heap, t)|
    ensures |Nodes(s1.heap, t)| == |Nodes(s0.heap, t)| && NodeTrim(Nodes(s0.heap, t)[i], Nodes(s1.heap, t)[i])
    ensures Nodes(s1.heap, t)[i].val == Nodes(s0.heap, t)[i].val || (t in b && ValueLost(s0.heap, Outside(s0, b), Nodes(s0.heap, t)[i].val))
    ensures forall v: Value :: IsStr(s1.heap, v) <==> IsStr(s0.heap, v)
    ensures Regular(s1, t) <==> Regular(s0, t)
  {
    RegularSame(s0, s1, Outside(s0, b), t);
    TableTrim(s0.heap, s1.heap, t);
    TrimStrings(s0.heap, s1.heap);
    hide Settling, EarlyClear, IsStr, Outside, Regular;
    assert EntriesLost(s0.heap, if t in b then Outside(s0, b) else iset{}, Nodes(s0.heap, t), Nodes(s1.heap, t), false);
  }

  lemma ExactLate(s0: St, s1: St, s2: St, s: St, b: set<Ref>, r: Ref)
    requires EarlyDone(s0, s1, b) && Settling(s0, s1, Outside(s0, b)) && s2 == s1.(bound := s2.bound)
    requires exists t :: LateIn(s2, s, t, r)
    ensures exists t :: OriginIn(s0, b, s, t, r)
  {
    hide Settling, EarlyDone, Outside, Marked, IsStr;
    var t :| LateIn(s2, s, t, r);
    var i :| 0 <= i < |Nodes(s2.heap, t)| && LateAt(s2.heap, Whites(s.color), Nodes(s2.heap, t)[i], r);
    RegularSame(s0, s1, Outside(s0, b), t);
    SettlingTable(s0, s1, Outside(s0, b), t);
    EarlyEntry(s0, s1, b, t, i);
    assert Nodes(s1.heap, t)[i].key == Nodes(s0.heap, t)[i].key && Nodes(s1.heap, t)[i].val == Nodes(s0.heap, t)[i].val by {
      assert NodeTrim(Nodes(s0.heap, t)[i], Nodes(s1.heap, t)[i]);
    }
    if t in b { EarlyValue(s0, s1, b, t, i); }
    assert OriginAt(s0.heap, Outside(s0, b), Whites(s.color), t in b, Nodes(s0.heap, t)[i], r);
    assert OriginIn(s0, b, s, t, r);
  }

  lemma SettlingTable(s: St, s': St, W: iset<Ref>, t: Ref)
    requires Settling(s, s', W)
    ensures |Nodes(s'.heap, t)| == |Nodes(s.heap, t)|
  {
    TableTrim(s.heap, s'.heap, t);
  }

  // A value that the first clearing has left in an all-weak table is not lost.
  lemma EarlyValue(s0: St, s1: St, b: set<Ref>, t: Ref, i: nat)
    requires EarlyDone(s0, s1, b) && t in b && Regular(s1, t) && i < |Nodes(s1.heap, t)|
    ensures !ValueLost(s0.heap, Outside(s0, b), Nodes(s1.heap, t)[i].val)
  {
    hide EarlyLost, Outside;
    assert ValsClear(Whites(s1.color), s1.heap[t].nodes);
  }

  lemma ExactMarked(s0: St, s1: St, s2: St, s: St, b: set<Ref>, t: Ref, r: Ref)
    requires EarlyDone(s0, s1, b) && Settling(s0, s1, Outside(s0, b)) && s2 == s1.(bound := s2.bound)
    requires LateDone(s2, s) && OriginIn(s0, b, s, t, r) && Whites(s.color) <= Whites(s1.color)
    ensures r !in Whites(s.color)
  {
    hide Settling, EarlyDone, LateDone, Outside, Marked, IsStr;
    var i :| 0 <= i < |Nodes(s0.heap, t)| && OriginAt(s0.heap, Outside(s0, b), Whites(s.color), t in b, Nodes(s0.heap, t)[i], r);
    EarlyEntry(s0, s1, b, t, i);
    var n, n1 := Nodes(s0.heap, t)[i], Nodes(s1.heap, t)[i];
    assert n1.key == n.key && n1.val == n.val by { assert NodeTrim(n, n1); }
    if t in b && n.val == Obj(r) {
      EarlyMarked(s0, s1, b, t, i);
    } else {
      assert LateAt(s2.heap, Whites(s.color), Nodes(s2.heap, t)[i], r);
      assert LateIn(s2, s, t, r);
      LateParts(s2, s);
    }
  }

  lemma EarlyMarked(s0: St, s1: St, b: set<Ref>, t: Ref, i: nat)
    requires EarlyDone(s0, s1, b) && t in b && Regular(s1, t) && i < |Nodes(s1.heap, t)|
    ensures !In(Whites(s1.color), Nodes(s1.heap, t)[i].val)
  {
    hide EarlyLost, Outside;
    assert ValsClear(Whites(s1.color), s1.heap[t].nodes);
  }

  // All but the flip of the current white. Only objects of 'g.bound' are marked before
  // the objects to be finalized are separated, and only objects of 'wide' in the end.
  // Entries are lost from tables only if their key or their value is not in 'b'.
  method MarkAndClear(g: GlobalState, ghost wide: set<Ref>) returns (ghost b: set<Ref>, ghost strong: Colors)
    requires !g.clearing && g.gcstate == InsideAtomic && g.inside && !g.remarked && g.gray == [] && g.work == [] && g.again == g.grayagain
    requires RootsIn(g.bound, g.running, g.registry, g.mt) && UvsIn(g.heap, g.upv, g.bound) && LooseIn(g.View())
    requires ClosedSet(g.View(), {}, wide) && g.bound <= wide && AllIn(g.finobj, wide) && AllIn(g.tobefnz, wide)
    requires g.mainthread !in Whites(g.color) && AllInTwups(g.heap, g.twups) && MarkInv(g.View(), {})
    modifies g`heap, g`upv, g`color, g`gray, g`loc, g`grayagain, g`again, g`weak, g`ephemeron, g`allweak, g`twups, g`work, g`bound, g`remarked, g`clearing, g`finobj, g`tobefnz
    ensures NothingPending(g.View()) && Cleared(g.View()) && StrongWithin(old(g.View()), strong) && Exact(old(g.View()), b, g.View(), wide)
    ensures Reached(old(g.View()), b, g.mainthread, g.running, g.registry, g.mt)
    ensures Whites(g.color) <= Outside(old(g.View()), b) && Settling(old(g.View()), g.View(), Outside(old(g.View()), b))
    ensures NoneOf(Whites(g.color), g.tobefnz) && Whites(g.color) <= Whites(strong) && strong.Keys == old(g.heap.Keys)
    ensures Finished(old(g.View()), g.View())
    ensures Separated(strong, old(g.finobj), old(g.tobefnz), g.finobj, g.tobefnz)
    ensures MarkInv(g.View(), {})
  {
    hide MarkInv, Settling, RootsClear, RootsIn, UvsIn, LooseIn, AllValuesCleared, AllIn, NoneOf, Cleared, NothingPending, Separated, Reached, Outside, ClosedSet, Spared, Finished, ModesKept, Whites, MarkedWithin, AllInTwups, EarlyDone, Exact, StrongWithin;
    ghost var s0 := g.View();
    b := MarkReachable(g);
    strong := g.color;
    WithinStrong(s0, g.View(), b);
    MarkLate(g, s0, b, wide);
  }

  // Only objects of the bound have these colours, and strings.
  ghost predicate StrongWithin(s: St, strong: Colors) {
    forall r :: r in strong && !strong[r].White? ==> r in s.bound || IsStr(s.heap, Obj(r))
  }

  lemma WithinStrong(s0: St, s: St, b: set<Ref>)
    requires MarkInv(s, {}) && EarlyDone(s0, s, b)
    ensures StrongWithin(s0, s.color)
  {
    BoundMarked(s);
    hide MarkInv, EarlyDone;
    EarlyWithin(s0, s, b);
  }

  // It does not matter for that how far marking had come, if nothing has been lost.
  lemma ExactBefore(s0: St, s: St, b: set<Ref>, s': St, wide: set<Ref>)
    requires Settling(s0, s, iset{}) && s.bound == s0.bound && Exact(s, b, s', wide)
    ensures Exact(s0, b, s', wide)
  {
    forall t, r ensures OriginIn(s, b, s', t, r) <==> OriginIn(s0, b, s', t, r) { OriginSame(s0, s, b, s', t, r); }
    hide OriginIn, Marked, ExactLost;
    forall t | t in s0.heap ensures ExactLost(s0, b, s', Nodes(s0.heap, t), Nodes(s'.heap, t), t in b) { LostSame(s0, s, b, s', t); }
    hide Settling;
    forall r | r in Marked(s'.color) && r !in wide ensures exists t :: OriginIn(s0, b, s', t, r) {
      var t :| OriginIn(s, b, s', t, r);
      assert OriginIn(s0, b, s', t, r);
    }
  }

  lemma LostSame(s0: St, s: St, b: set<Ref>, s': St, t: Ref)
    requires Settling(s0, s, iset{}) && t in s0.heap
    requires t in s.heap ==> ExactLost(s, b, s', Nodes(s.heap, t), Nodes(s'.heap, t), t in b)
    ensures ExactLost(s0, b, s', Nodes(s0.heap, t), Nodes(s'.heap, t), t in b)
  {
    NothingLost(s0, s, t);
    TrimStrings(s0.heap, s.heap);
    TrimKeys0(s0.heap, s.heap);
    OutsideBack(s0, s, b);
    hide Settling, IsStr, Outside;
  }

  lemma OriginSame(s0: St, s: St, b: set<Ref>, s': St, t: Ref, r: Ref)
    requires Settling(s0, s, iset{})
    ensures OriginIn(s, b, s', t, r) <==> OriginIn(s0, b, s', t, r)
  {
    OriginOver(s0, s, b, s', t, r);
    hide OriginIn, OriginAt;
    if OriginIn(s, b, s', t, r) {
      OriginAway(s0, s, b, s', t, r);
    }
  }

  lemma OriginOver(s0: St, s: St, b: set<Ref>, s': St, t: Ref, r: Ref)
    requires Settling(s0, s, iset{})
    ensures OriginIn(s0, b, s', t, r) ==> OriginIn(s, b, s', t, r)
  {
    TrimStrings(s0.heap, s.heap);
    RegularSame(s0, s, iset{}, t);
    OutsideBack(s0, s, b);
    if t in s0.heap { NothingLost(s0, s, t); }
    hide Settling, IsStr, Marked, Outside, Regular;
    if OriginIn(s0, b, s', t, r) && t in s0.heap {
      var i :| 0 <= i < |Nodes(s0.heap, t)| && OriginAt(s0.heap, Outside(s0, b), Whites(s'.color), t in b, Nodes(s0.heap, t)[i], r);
      assert OriginAt(s.heap, Outside(s, b), Whites(s'.color), t in b, Nodes(s.heap, t)[i], r);
    }
  }

  lemma OriginAway(s0: St, s: St, b: set<Ref>, s': St, t: Ref, r: Ref)
    requires Settling(s0, s, iset{}) && OriginIn(s, b, s', t, r)
    ensures OriginIn(s0, b, s', t, r)
  {
    TrimStrings(s0.heap, s.heap);
    RegularSame(s0, s, iset{}, t);
    OutsideBack(s0, s, b);
    if t in s0.heap { NothingLost(s0, s, t); }
    hide Settling, IsStr, Marked, Outside;
    var i :| 0 <= i < |Nodes(s.heap, t)| && OriginAt(s.heap, Outside(s, b), Whites(s'.color), t in b, Nodes(s.heap, t)[i], r);
    assert OriginAt(s0.heap, Outside(s0, b), Whites(s'.color), t in b, Nodes(s0.heap, t)[i], r);
  }

  lemma ExactBound(s0: St, b: set<Ref>, s: St, s': St, wide: set<Ref>)
    requires Exact(s0, b, s, wide) && s'.color == s.color && s'.heap == s.heap
    ensures Exact(s0, b, s', wide)
  {
    forall t | t in s0.heap ensures ExactLost(s0, b, s', Nodes(s0.heap, t), Nodes(s'.heap, t), t in b) {
      assert ExactLost(s0, b, s, Nodes(s0.heap, t), Nodes(s.heap, t), t in b);
    }
    forall t, r ensures OriginIn(s0, b, s, t, r) <==> OriginIn(s0, b, s', t, r) {}
  }

  // From the separation on, with the wider bound.
  method MarkLate(g: GlobalState, ghost s0: St, ghost b: set<Ref>, ghost wide: set<Ref>)
    requires g.TraversalPhase() && g.gcstate == InsideAtomic && g.gray == [] && g.again == [] && g.work == [] && g.clearing
    requires ClosedSet(s0, {}, wide) && s0.bound <= wide && EarlyDone(s0, g.View(), b) && AllIn(g.finobj, wide) && AllIn(g.tobefnz, wide)
    requires Reached(s0, b, g.mainthread, g.running, g.registry, g.mt) && Settling(s0, g.View(), Outside(s0, b))
    requires (ModesKept(s0) ==> Spared(s0, g.View(), b)) && Whites(g.color) <= Outside(s0, b) && LooseIn(g.View())
    requires AllValuesCleared(g.View(), g.weak) && AllValuesCleared(g.View(), g.allweak) && MarkInv(s0, {}) && MarkInv(g.View(), {})
    modifies g`heap, g`upv, g`color, g`gray, g`loc, g`grayagain, g`again, g`weak, g`ephemeron, g`allweak, g`twups, g`work, g`bound, g`finobj, g`tobefnz, g`clearing
    ensures NothingPending(g.View()) && Cleared(g.View()) && NoneOf(Whites(g.color), g.tobefnz)
    ensures Settling(s0, g.View(), Outside(s0, b)) && Finished(s0, g.View()) && Exact(s0, b, g.View(), wide)
    ensures Whites(g.color) <= old(Whites(g.color)) && old(g.color).Keys == s0.heap.Keys
    ensures Separated(old(g.color), old(g.finobj), old(g.tobefnz), g.finobj, g.tobefnz)
    ensures MarkInv(g.View(), {})
  {
    hide MarkInv, Settling, LooseIn, AllValuesCleared, AllIn, NoneOf, Cleared, NothingPending, Separated, Reached, Outside, ClosedSet, Spared, Finished, ModesKept, Whites, MarkedWithin, EarlyDone, LateDone, Exact;
    ghost var s1 := g.View();
    EarlyWithin(s0, s1, b);
    BoundMarked(s1);
    WidenBound(g, s0, Outside(s0, b), wide);
    ghost var s2 := g.View();
    AllInMore(g.finobj, wide, g.bound);
    AllInMore(g.tobefnz, wide, g.bound);
    MarkResurrected(g);
    AllMarked(s0, s1, s2, g.View(), b, wide, g.mainthread, g.running, g.registry, g.mt);
  }

  lemma AllMarked(s0: St, s1: St, s2: St, s: St, b: set<Ref>, wide: set<Ref>, mainthread: Ref, running: Ref, registry: Value, mt: seq<Option<Ref>>)
    requires MarkInv(s0, {}) && Reached(s0, b, mainthread, running, registry, mt) && Settling(s0, s1, Outside(s0, b))
    requires ModesKept(s0) ==> Spared(s0, s1, b)
    requires s2 == s1.(bound := s2.bound) && Settling(s0, s2, Outside(s0, b)) && Settling(s2, s, Whites(s2.color)) && Finished(s2, s)
    requires Whites(s1.color) <= Outside(s0, b) && s1.color.Keys == s1.heap.Keys && MarkInv(s, {})
    requires EarlyDone(s0, s1, b) && s2.bound == wide + s1.bound && s0.bound <= wide && LateDone(s2, s)
    ensures Settling(s0, s, Outside(s0, b)) && Whites(s.color) <= Whites(s1.color) && s1.color.Keys == s0.heap.Keys && Finished(s0, s)
    ensures Exact(s0, b, s, wide)
  {
    hide MarkInv, Settling, Reached, Spared, ModesKept, Finished, Outside, Whites, EarlyDone, LateDone, Exact, Marked;
    SettlingBoth(s0, s1, s2, s, Outside(s0, b));
    InsideMarked(s0, s, b);
    ExactAll(s0, s1, s2, s, b, wide);
    FinishedBefore(s0, s1, s2, s, b, mainthread, running, registry, mt);
  }

  lemma SettlingBoth(s0: St, s1: St, s2: St, s: St, W: iset<Ref>)
    requires Settling(s0, s1, W) && Settling(s0, s2, W) && Settling(s2, s, Whites(s2.color))
    requires Whites(s2.color) <= W && s2.color == s1.color && s1.color.Keys == s1.heap.Keys
    ensures Settling(s0, s, W) && Whites(s.color) <= Whites(s1.color) && s1.color.Keys == s0.heap.Keys == s.color.Keys
  {
    hide Settling;
    SettlingColors(s2, s, Whites(s2.color));
    SettlingMore(s2, s, Whites(s2.color), W);
    SettlingTransitive(s0, s2, s, W, W);
    SettlingWhites(s2, s, W);
    SettlingHeap(s0, s1, W);
  }

  // A reference that was strong before the first clearing has been followed as well.
  lemma FinishedBefore(s0: St, s1: St, s2: St, s: St, b: set<Ref>, mainthread: Ref, running: Ref, registry: Value, mt: seq<Option<Ref>>)
    requires MarkInv(s0, {}) && Reached(s0, b, mainthread, running, registry, mt) && Settling(s0, s1, Outside(s0, b))
    requires ModesKept(s0) ==> Spared(s0, s1, b)
    requires s2 == s1.(bound := s2.bound) && Finished(s2, s) && Whites(s.color) <= Outside(s0, b) && s.color.Keys == s0.heap.Keys
    ensures Finished(s0, s)
  {
    hide MarkInv, StrongObj, Spared, Settling, ModesKept, Marked, Reached, Clear;
    if ModesKept(s0) {
      FinishedFacts(s0, s1, s2, s, b, mainthread, running, registry, mt);
      var b' := Marked(s.color);
      forall r | r in b' && r in s0.heap && r !in s0.stuck ensures StrongObj(s0.heap, s0.upv, b', s0.heap[r]) {
        ChildExists(s0, {}, r);
        FinishedObject(s0, s1, b, b', r);
      }
    }
  }

  lemma FinishedFacts(s0: St, s1: St, s2: St, s: St, b: set<Ref>, mainthread: Ref, running: Ref, registry: Value, mt: seq<Option<Ref>>)
    requires MarkInv(s0, {}) && Reached(s0, b, mainthread, running, registry, mt) && Settling(s0, s1, Outside(s0, b)) && ModesKept(s0)
    requires s2 == s1.(bound := s2.bound) && Finished(s2, s) && Whites(s.color) <= Outside(s0, b) && s.color.Keys == s0.heap.Keys
    ensures HeapWF(s0.heap, s0.upv) && b * s0.heap.Keys <= Marked(s.color) && s1.heap.Keys == s0.heap.Keys && s1.stuck == s0.stuck
    ensures StrongClosed(s1.heap, s1.upv, s1.stuck, Marked(s.color)) && StrongClosed(s0.heap, s0.upv, s0.stuck, b)
  {
    WellFormedHeap(s0);
    hide MarkInv, StrongClosed, Settling, ModesKept, MarkedWithin, UvsIn, RootsClear;
    SettlingHeap(s0, s1, Outside(s0, b));
    SettlingMode(s0, s1, Outside(s0, b));
    SettlingColors(s0, s1, Outside(s0, b));
    ModesBound(s1, s2);
    InsideMarked(s0, s, b);
  }

  lemma InsideMarked(s0: St, s: St, b: set<Ref>)
    requires Whites(s.color) <= Outside(s0, b) && s.color.Keys == s0.heap.Keys
    ensures b * s0.heap.Keys <= Marked(s.color)
  {
    forall r | r in b && r in s0.heap ensures r in Marked(s.color) { assert r !in Outside(s0, b); }
  }

  lemma SettlingMode(s: St, s': St, W: iset<Ref>)
    requires Settling(s, s', W) && ModesKept(s)
    ensures ModesKept(s')
  {
    hide ModesKept;
  }

  lemma ModesBound(s: St, s': St)
    requires ModesKept(s) && s' == s.(bound := s'.bound)
    ensures ModesKept(s')
  {}

  lemma FinishedObject(s0: St, s: St, b: set<Ref>, b': set<Ref>, r: Ref)
    requires HeapWF(s0.heap, s0.upv) && Settling(s0, s, Outside(s0, b)) && Spared(s0, s, b) && b * s0.heap.Keys <= b'
    requires r in s0.heap && r !in s0.stuck && r in s.heap && StrongObj(s.heap, s.upv, b', s.heap[r])
    requires r in b ==> StrongObj(s0.heap, s0.upv, b, s0.heap[r])
    requires Clear(s0.heap, s0.upv, Missing(s0.heap), s0.heap[r])
    ensures StrongObj(s0.heap, s0.upv, b', s0.heap[r])
  {
  }

  lemma SettlingColors(s: St, s': St, W: iset<Ref>)
    requires Settling(s, s', W)
    ensures s'.color.Keys == s.color.Keys && s'.stuck == s.stuck
  {}

  lemma SettlingHeap(s: St, s': St, W: iset<Ref>)
    requires Settling(s, s', W)
    ensures s'.heap.Keys == s.heap.Keys
  {}

  lemma LooseWide(s: St, wide: set<Ref>)
    requires LooseIn(s) && s.bound <= wide
    ensures LooseIn(s.(bound := wide))
  {}

  lemma SettlingBound(s0: St, s: St, s': St, W: iset<Ref>)
    requires Settling(s0, s, W) && s' == s.(bound := s'.bound)
    ensures Settling(s0, s', W)
  {}

  lemma ClearedBound(s: St, s': St)
    requires s' == s.(bound := s'.bound)
    ensures AllValuesCleared(s, s.weak) ==> AllValuesCleared(s', s.weak)
    ensures AllValuesCleared(s, s.allweak) ==> AllValuesCleared(s', s.allweak)
  {
    TrimReflexive(s.heap);
    hide AllValuesCleared;
    AllClearedKept(s, s', s.weak);
    AllClearedKept(s, s', s.allweak);
  }

  lemma SettlingNone(s: St, s': St, W: iset<Ref>, rs: seq<Ref>)
    requires Settling(s, s', W) && NoneOf(Whites(s.color), rs)
    ensures NoneOf(Whites(s'.color), rs)
  {}

  lemma SettlingWhites(s: St, s': St, W: iset<Ref>)
    requires Settling(s, s', W)
    ensures Whites(s'.color) <= Whites(s.color)
  {}
}
