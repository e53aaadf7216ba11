// Convergence of ephemeron tables: the rounds of convergeephemerons end with no
// marked key before an unmarked value, having marked nothing that is not forced.

module GcConverge {
  import opened GcHeap
  import opened GcInvariants
  import opened GcState
  import opened GcSteps
  import opened GcAtomicSteps
  import opened GcMark

  ghost predicate AllEphClosed(s: St) {
    forall r :: r in s.ephemeron ==> EphClosed(s, r)
  }

  lemma AllEphClosedTable(s: St, s': St, h: Ref)
    requires AllEphClosed(s) && Trim(s.heap, s'.heap) && OnlyStrings(s.heap, Whites(s.color), Whites(s'.color))
    requires s'.ephemeron == s.ephemeron || s'.ephemeron == [h] + s.ephemeron
    requires EphClosedTo(s.heap, Whites(s'.color), Nodes(s'.heap, h), |Nodes(s'.heap, h)|)
    ensures AllEphClosed(s')
  {
    forall r | r in s'.ephemeron ensures EphClosed(s', r) {
      if r in s.ephemeron {
        EphClosedKept(s, s', r);
      } else {
        assert r == h;
        EphClosedHere(s, s', h);
      }
    }
  }

  lemma EphClosedHere(s: St, s': St, h: Ref)
    requires Trim(s.heap, s'.heap)
    requires EphClosedTo(s.heap, Whites(s'.color), Nodes(s'.heap, h), |Nodes(s'.heap, h)|)
    ensures EphClosed(s', h)
  {
    assert forall x :: x in s.heap ==> ObjTrim(s.heap[x], s'.heap[x]);
    var ns := Nodes(s'.heap, h);
    forall i | 0 <= i < |ns| ensures EphEntry(s'.heap, Whites(s'.color), ns[i]) {
      assert EphEntry(s.heap, Whites(s'.color), ns[i]);
    }
  }

  // What one step of a round does to the state, besides marking.
  ghost predicate RoundStep(s: St, s': St, marked: bool) {
    && (marked ==> Whites(s'.color) != Whites(s.color))
    && (!marked && AllEphClosed(s) ==> AllEphClosed(s'))
  }

  // Takes the table w off the list.
  method TakeEphemeron(g: GlobalState, w: Ref)
    requires g.work != [] && g.work[0] == w && MarkInv(g.View(), {})
    modifies g`loc, g`work
    ensures w in old(g.loc) && g.View() == TakeWork(old(g.View())) && Progress(old(g.View()), g.View())
    ensures w in g.heap && w in g.loc && w in g.color && g.color[w].Gray? && w in g.bound && w !in g.stuck
    ensures g.heap[w].Table? && g.heap[w].mode.Ephemeron? && !OptIn(Whites(g.color), g.heap[w].meta)
    ensures MarkInv(g.View(), {w})
  {
    hide MarkInv, Progress, OptIn;
    TakeWorkFacts(g.View());
    TakeWorkInv(g.View());
    g.work := g.work[1..];
    g.loc := g.loc[w := NoList];
  }

  lemma TakeWorkIs(s: St)
    requires s.work != [] && MarkInv(s, {})
    ensures s.work[0] in s.loc
    ensures TakeWork(s) == s.(work := s.work[1..], loc := s.loc[s.work[0] := NoList])
  {
    hide MarkInv;
    TakeWorkFacts(s);
  }

  // Revisits the table w; 'true' means that it marked values and propagated them.
  method RevisitEphemeron(g: GlobalState, w: Ref) returns (marked: bool)
    requires g.work != [] && g.work[0] == w && g.gray == [] && g.TraversalPhase() && g.gcstate == InsideAtomic
    requires MarkInv(g.View(), {})
    modifies g`heap, g`upv, g`color, g`gray, g`loc, g`grayagain, g`again, g`weak, g`ephemeron, g`allweak, g`twups, g`work
    ensures g.TraversalPhase() && g.gray == [] && g.work == old(g.work)[1..]
    ensures RoundStep(old(g.View()), g.View(), marked)
    ensures MarkInv(g.View(), {}) && Progress(old(g.View()), g.View())
  {
    hide MarkInv, Progress, AllEphClosed, OnlyStrings, EphClosedTo, TakeWork, OptIn;
    ghost var s0 := g.View();
    TakeWorkIs(s0);
    TakeEphemeron(g, w);
    ghost var s1 := g.View();
    marked := g.TraverseEphemeron(w);
    ghost var s2 := g.View();
    ProgressTransitive(s0, s1, s2);
    ProgressWhites(s0, s2);
    if marked {
      g.PropagateAll();
      ProgressTransitive(s0, s2, g.View());
      ProgressWhites(s2, g.View());
    } else {
      RevisitUnmarked(s0, s1, s2, w);
    }
  }

  lemma RevisitUnmarked(s0: St, s1: St, s2: St, w: Ref)
    requires s1 == s0.(work := s1.work, loc := s1.loc) && Progress(s1, s2)
    requires OnlyStrings(s1.heap, Whites(s1.color), Whites(s2.color))
    requires s2.ephemeron == s1.ephemeron || s2.ephemeron == [w] + s1.ephemeron
    requires EphClosedTo(s1.heap, Whites(s2.color), Nodes(s2.heap, w), |Nodes(s2.heap, w)|)
    ensures AllEphClosed(s0) ==> AllEphClosed(s2)
  {
    if AllEphClosed(s0) {
      forall r | r in s1.ephemeron ensures EphClosed(s1, r) { assert EphClosed(s0, r); }
      AllEphClosedTable(s1, s2, w);
    }
  }

  // The list is taken off; tables may return to it when they are traversed.
  method DetachEphemerons(g: GlobalState)
    requires g.work == [] && g.TraversalPhase() && g.gcstate == InsideAtomic && MarkInv(g.View(), {})
    modifies g`loc, g`ephemeron, g`work
    ensures g.work == old(g.ephemeron) && AllEphClosed(g.View()) && g.View() == EphToWork(old(g.View()))
    ensures MarkInv(g.View(), {}) && Progress(old(g.View()), g.View())
  {
    hide MarkInv, Progress, AllEphClosed, Relabel;
    EphToWorkInv(g.View());
    g.work := g.ephemeron;
    g.ephemeron := [];
    g.loc := Relabel(g.loc, EphL, WorkL);
    NoneEphemeron(g.View());
  }

  lemma RoundMore(s0: St, s: St, s': St)
    requires Progress(s0, s) && Progress(s, s')
    ensures Progress(s0, s') && (Whites(s.color) != Whites(s0.color) || Whites(s'.color) != Whites(s.color) ==> Whites(s'.color) != Whites(s0.color))
  {
    hide Progress, Whites;
    ProgressWhites(s0, s);
    ProgressWhites(s, s');
    ProgressTransitive(s0, s, s');
  }

  // One round of convergeephemerons.
  method ConvergeRound(g: GlobalState) returns (changed: bool)
    requires g.work == [] && g.gray == [] && g.TraversalPhase() && g.gcstate == InsideAtomic
    requires MarkInv(g.View(), {})
    modifies g`heap, g`upv, g`color, g`gray, g`loc, g`grayagain, g`again, g`weak, g`ephemeron, g`allweak, g`twups, g`work
    ensures g.TraversalPhase() && g.gray == [] && g.work == []
    ensures changed ==> Whites(g.color) != old(Whites(g.color))
    ensures !changed ==> AllEphClosed(g.View())
    ensures MarkInv(g.View(), {}) && Progress(old(g.View()), g.View())
  {
    hide MarkInv, Progress, AllEphClosed, Whites;
    ghost var s0 := g.View();
    var next := g.ephemeron;
    DetachEphemerons(g);
    changed := false;
    while next != []
      invariant g.work == next && g.gray == [] && g.TraversalPhase()
      invariant !changed ==> AllEphClosed(g.View())
      invariant changed ==> Whites(g.color) != Whites(s0.color)
      invariant MarkInv(g.View(), {}) && Progress(s0, g.View())
      decreases |next|
    {
      ghost var s := g.View();
      var w := next[0];
      next := next[1..];
      var marked := RevisitEphemeron(g, w);
      RoundMore(s0, s, g.View());
      if marked {
        changed := true;
      }
    }
  }

  lemma NoneEphemeron(s: St)
    requires s.ephemeron == []
    ensures AllEphClosed(s)
  {}

  // Rounds until one changes nothing.
  method ConvergeRounds(g: GlobalState)
    requires g.work == [] && g.gray == [] && g.TraversalPhase() && g.gcstate == InsideAtomic
    requires MarkInv(g.View(), {})
    modifies g`heap, g`upv, g`color, g`gray, g`loc, g`grayagain, g`again, g`weak, g`ephemeron, g`allweak, g`twups, g`work
    ensures g.TraversalPhase() && g.gray == [] && g.work == []
    ensures AllEphClosed(g.View())
    ensures MarkInv(g.View(), {}) && Progress(old(g.View()), g.View())
  {
    hide MarkInv, Progress, AllEphClosed;
    ProgressReflexive(g.View());
    var changed := true;
    while changed
      invariant g.work == [] && g.gray == [] && g.TraversalPhase()
      invariant !changed ==> AllEphClosed(g.View())
      invariant MarkInv(g.View(), {}) && Progress(old(g.View()), g.View())
      decreases WhiteSet(g.color), changed
    {
      ghost var s := g.View();
      changed := ConvergeRound(g);
      ProgressTransitive(old(g.View()), s, g.View());
      ProgressWhites(s, g.View());
      WhiteSetMeasure(s.color, g.color);
    }
  }

  // A set that marking does not leave: it has the objects of 'base' and everything that
  // is marked, and it is closed under strong references and under "key forces value".
  ghost predicate ClosedSet(s: St, base: set<Ref>, b: set<Ref>) {
    base <= b && BoundClosed(s.heap, s.upv, s.stuck, b) && MarkedWithin(s.color, b)
  }

  ghost predicate Forced(s: St, base: set<Ref>, r: Ref) {
    forall b: set<Ref> :: ClosedSet(s, base, b) ==> r in b
  }

  // The least such set.
  ghost function Least(s: St, base: set<Ref>): set<Ref> {
    set r | r in s.heap && Forced(s, base, r)
  }

  lemma ForcedObject(s: St, base: set<Ref>, r: Ref)
    requires r in s.heap && r !in s.stuck && Forced(s, base, r)
    requires ObjectWF(s.upv, r, s.heap[r]) && Clear(s.heap, s.upv, Missing(s.heap), s.heap[r])
    ensures ObjBound(s.heap, s.upv, Least(s, base), s.heap[r])
  {
    forall b | ClosedSet(s, base, b) ensures ObjBound(s.heap, s.upv, b, s.heap[r]) { assert r in b; }
    match s.heap[r]
    case Table(_, mode, arr, nodes) =>
      forall i | 0 <= i < |nodes| ensures EntryBound(s.heap, Least(s, base), mode, nodes[i]) {
        assert NodeClear(Missing(s.heap), nodes[i]);
        ForcedEntry(s, base, mode, nodes, i);
      }
    case _ =>
  }

  lemma ForcedEntry(s: St, base: set<Ref>, mode: Mode, nodes: seq<Node>, i: nat)
    requires i < |nodes| && NodeClear(Missing(s.heap), nodes[i]) && (nodes[i].dead ==> nodes[i].val.Nil?)
    requires forall b: set<Ref> :: ClosedSet(s, base, b) ==> EntryBound(s.heap, b, mode, nodes[i])
    ensures EntryBound(s.heap, Least(s, base), mode, nodes[i])
  {}

  lemma LeastClosed(s: St, base: set<Ref>)
    requires HeapWF(s.heap, s.upv) && Exist(s.heap, s.upv) && s.color.Keys == s.heap.Keys && base <= s.heap.Keys
    ensures ClosedSet(s, base, Least(s, base))
  {
    forall r | r in Least(s, base) && r in s.heap && r !in s.stuck
      ensures ObjBound(s.heap, s.upv, Least(s, base), s.heap[r])
    {
      ForcedObject(s, base, r);
    }
  }

  lemma AllClosed(h: Heap, u: Upvals, stuck: set<Ref>)
    requires HeapWF(h, u) && Exist(h, u)
    ensures BoundClosed(h, u, stuck, h.Keys)
  {
    forall r | r in h ensures ObjBound(h, u, h.Keys, h[r]) {
      assert ObjectWF(u, r, h[r]) && Clear(h, u, Missing(h), h[r]);
      AllBound(h, u, r, h[r]);
    }
  }

  lemma AllBound(h: Heap, u: Upvals, r: Ref, o: Object)
    requires ObjectWF(u, r, o) && Clear(h, u, Missing(h), o)
    ensures ObjBound(h, u, h.Keys, o)
  {
    if o.Table? {
      forall i | 0 <= i < |o.nodes| ensures EntryBound(h, h.Keys, o.mode, o.nodes[i]) {
        assert NodeClear(Missing(h), o.nodes[i]);
      }
    }
  }

  // The bound may be changed to any closed set.
  lemma Rebound(s: St, b: set<Ref>)
    requires ClosedSet(s, {}, b) && MarkInv(s, {})
    ensures MarkInv(s.(bound := b), {})
  {
    hide HeapWF, Exist, LocsOk, NoDead, FixedOk, TwupsOk, StuckOk, BlackInv, GrayInv, BoundClosed, MarkedWithin, ListIs, AllWeakIs;
  }

  lemma ReboundLeast(s: St, base: set<Ref>)
    requires MarkInv(s, {}) && base <= s.heap.Keys
    ensures MarkInv(s.(bound := Least(s, base)), {}) && base <= Least(s, base)
  {
    LeastClosed(s, base);
    assert ClosedSet(s, {}, Least(s, base));
    hide MarkInv, ClosedSet, Least;
    Rebound(s, Least(s, base));
  }

  lemma ReboundAll(s: St)
    requires MarkInv(s, {})
    ensures MarkInv(s.(bound := s.heap.Keys), {})
  {
    AllClosed(s.heap, s.upv, s.stuck);
    assert ClosedSet(s, {}, s.heap.Keys);
    hide MarkInv, ClosedSet;
    Rebound(s, s.heap.Keys);
  }

  lemma BoundMarked(s: St)
    requires MarkInv(s, {})
    ensures MarkedWithin(s.color, s.bound) && s.color.Keys == s.heap.Keys
  {}

  // Nothing that some closed set does not contain has been marked.
  ghost predicate OnlyForced(s: St, base: set<Ref>, s': St) {
    forall b: set<Ref> :: ClosedSet(s, base, b) ==> MarkedWithin(s'.color, b)
  }

  lemma LeastOnlyForced(s: St, base: set<Ref>, s': St)
    requires MarkedWithin(s'.color, Least(s, base))
    ensures OnlyForced(s, base, s')
  {
    forall b | ClosedSet(s, base, b) ensures MarkedWithin(s'.color, b) {
      forall r | r in s'.color && !s'.color[r].White? ensures r in b { assert r in Least(s, base) && Forced(s, base, r); }
    }
  }

  // A set that was closed before a step still is, if the step has only marked what is in it.
  lemma StillClosed(s: St, s': St, b: set<Ref>)
    requires MarkInv(s, {}) && ClosedSet(s, {}, b) && Progress(s, s') && MarkedWithin(s'.color, b)
    ensures ClosedSet(s', {}, b)
  {
    BoundTrim(s.heap, s.upv, s'.heap, s'.upv, s.stuck, b);
  }

  lemma BoundIsClosed(s: St)
    requires MarkInv(s, {})
    ensures ClosedSet(s, {}, s.bound)
  {}

  lemma ReboundProgress(s0: St, s1: St, s2: St)
    requires Progress(s1, s2) && s1 == s0.(bound := s1.bound) && s1.bound <= s0.bound
    ensures Progress(s0, s2.(bound := s0.bound))
  {
    ReboundFlags(s2.heap, s1.upv, s2.upv, s1.bound, s0.bound);
    hide LosesOnly, Trim, SameUpvals, Emptied, FlagsWithin, FlagsServed, Losable;
  }

  lemma ReboundFlags(h: Heap, u: Upvals, u': Upvals, b: set<Ref>, b': set<Ref>)
    requires FlagsWithin(h, u, u', b) && b <= b'
    ensures FlagsWithin(h, u, u', b')
  {}

  lemma LeastBelow(s: St, base: set<Ref>, b: set<Ref>)
    requires ClosedSet(s, base, b)
    ensures Least(s, base) <= b
  {}

  lemma ReboundMarks(s0: St, s: St, b: set<Ref>)
    requires OnlyForced(s0, {}, s) && ClosedSet(s0, {}, b)
    ensures MarkedWithin(s.color, b)
  {}

  // Back to the old bound, after a step that has marked only what it had to.
  lemma ReboundBack(s0: St, s1: St, s2: St)
    requires MarkInv(s0, {}) && MarkInv(s2, {}) && Progress(s1, s2) && OnlyForced(s0, {}, s2)
    requires s1 == s0.(bound := s1.bound) && s1.bound == Least(s0, {})
    ensures MarkInv(s2.(bound := s0.bound), {}) && Progress(s0, s2.(bound := s0.bound))
  {
    hide MarkInv, Progress, ClosedSet, OnlyForced;
    var s3 := s2.(bound := s0.bound);
    BoundIsClosed(s0);
    LeastBelow(s0, {}, s0.bound);
    hide Least;
    ReboundProgress(s0, s1, s2);
    ReboundMarks(s0, s2, s0.bound);
    StillClosed(s0, s3, s0.bound);
    SameClosed(s3, s2, s0.bound);
    Rebound(s2, s0.bound);
  }

  lemma SameClosed(s: St, s': St, b: set<Ref>)
    requires ClosedSet(s, {}, b) && s' == s.(bound := s'.bound)
    ensures ClosedSet(s', {}, b)
  {}

  // Convergence reaches the least fixpoint: at exit no entry of a listed ephemeron
  // table has a marked key before an unmarked value, and only what every closed set
  // contains has been marked.
  method ConvergeEphemerons(g: GlobalState)
    requires g.work == [] && g.gray == [] && g.TraversalPhase() && g.gcstate == InsideAtomic
    requires MarkInv(g.View(), {})
    modifies g`heap, g`upv, g`color, g`gray, g`loc, g`grayagain, g`again, g`weak, g`ephemeron, g`allweak, g`twups, g`work, g`bound
    ensures g.TraversalPhase() && g.gray == [] && g.work == [] && g.bound == old(g.bound)
    ensures AllEphClosed(g.View()) && OnlyForced(old(g.View()), {}, g.View())
    ensures MarkInv(g.View(), {}) && Progress(old(g.View()), g.View())
  {
    hide MarkInv, AllEphClosed, OnlyForced, Least, Progress;
    ghost var s0 := g.View();
    ReboundLeast(s0, {});
    g.bound := Least(s0, {});
    ghost var s1 := g.View();
    ConvergeRounds(g);
    ghost var s2 := g.View();
    ProgressWhites(s1, s2);
    BoundMarked(s2);
    LeastOnlyForced(s0, {}, s2);
    ReboundBack(s0, s1, s2);
    g.bound := s0.bound;
    ConvergedRebound(s0, s2, g.View());
  }

  // propagatemark marks only what every closed set contains.
  method PropagateOne(g: GlobalState)
    requires g.gray != [] && g.TraversalPhase() && MarkInv(g.View(), {})
    modifies g`heap, g`upv, g`color, g`gray, g`loc, g`grayagain, g`again, g`weak, g`ephemeron, g`allweak, g`twups, g`bound
    ensures g.TraversalPhase() && g.bound == old(g.bound) && OnlyForced(old(g.View()), {}, g.View())
    ensures Whites(g.color) == old(Whites(g.color)) ==> g.gray == old(g.gray)[1..]
    ensures var o := old(g.gray)[0];
      o in old(g.heap) && old(g.heap)[o].Table? && old(g.heap)[o].mode.AllWeak? ==> g.allweak == [o] + old(g.allweak)
    ensures MarkInv(g.View(), {}) && Progress(old(g.View()), g.View())
  {
    hide MarkInv, OnlyForced, Least, Progress;
    ghost var s0 := g.View();
    ReboundLeast(s0, {});
    g.bound := Least(s0, {});
    ghost var s1 := g.View();
    g.PropagateMark();
    ghost var s2 := g.View();
    ProgressWhites(s1, s2);
    BoundMarked(s2);
    LeastOnlyForced(s0, {}, s2);
    ReboundBack(s0, s1, s2);
    g.bound := s0.bound;
    SameForced(s0, s2, g.View());
  }

  lemma SameForced(s0: St, s: St, s': St)
    requires OnlyForced(s0, {}, s) && s'.color == s.color
    ensures OnlyForced(s0, {}, s')
  {}

  lemma ConvergedRebound(s0: St, s: St, s': St)
    requires AllEphClosed(s) && OnlyForced(s0, {}, s) && s' == s.(bound := s'.bound)
    ensures AllEphClosed(s') && OnlyForced(s0, {}, s')
  {
    forall r | r in s'.ephemeron ensures EphClosed(s', r) { assert EphClosed(s, r); }
  }
}
