// Objects coming to life: new ones, and strings found again before they are swept;
// objects that get a finalizer; and changes of the roots.

module GcObjects {
  import opened Common
  import opened GcHeap
  import opened GcInvariants
  import opened GcState
  import opened GcMark
  import opened GcConverge
  import opened GcAtomic
  import opened GcMachine
  import opened GcSweep
  import opened GcCycle
  import opened GcFinalize
  import opened GcStore
  import opened GcMutator

  // -------------------------------------------------------------------- luaC_newobj

  // What a new object may hold: it is made of usable values, and no open upvalues.
  ghost predicate Newborn(s: St, r: Ref, o: Object) {
    && r !in s.heap && ObjectWF(s.upv, r, o) && (o.Thread? ==> o.openupval == [])
    && Clear(s.heap, s.upv, Gone(s), o)
  }

  ghost function Born(s: St, r: Ref, o: Object): St {
    s.(heap := s.heap[r := o], color := s.color[r := White(s.white)], loc := s.loc[r := NoList], bound := s.bound + {r})
  }

  lemma BornWF(s: St, r: Ref, o: Object)
    requires HeapWF(s.heap, s.upv) && Newborn(s, r, o)
    ensures HeapWF(Born(s, r, o).heap, s.upv)
  {
    forall id | id in s.upv ensures UvWF(Born(s, r, o).heap, id, s.upv[id]) {
      assert UvWF(s.heap, id, s.upv[id]);
    }
  }

  // Other objects, and the new one, lead to nothing bad that they did not lead to.
  lemma BornClear(s: St, r: Ref, o: Object, bad: iset<Ref>, x: Ref)
    requires HeapWF(s.heap, s.upv) && r !in s.heap && x in s.heap && Clear(s.heap, s.upv, bad, s.heap[x])
    ensures Clear(Born(s, r, o).heap, s.upv, bad, s.heap[x])
  {
    BornValues(s, r, o);
    assert ObjectWF(s.upv, x, s.heap[x]);
  }

  lemma BornValues(s: St, r: Ref, o: Object)
    requires HeapWF(s.heap, s.upv) && r !in s.heap
    ensures forall id :: id in s.upv ==> UvValue(Born(s, r, o).heap, s.upv, id) == UvValue(s.heap, s.upv, id)
  {
    forall id | id in s.upv ensures UvValue(Born(s, r, o).heap, s.upv, id) == UvValue(s.heap, s.upv, id) {
      assert UvWF(s.heap, id, s.upv[id]);
    }
  }

  lemma BornSelf(s: St, r: Ref, o: Object, bad: iset<Ref>)
    requires HeapWF(s.heap, s.upv) && Newborn(s, r, o) && bad <= Gone(s)
    ensures Clear(Born(s, r, o).heap, s.upv, bad, o)
  {
    BornValues(s, r, o);
    ClearAntitone(s.heap, s.upv, Gone(s), bad, o);
  }

  lemma BornSound(s: St, r: Ref, o: Object)
    requires HeapWF(s.heap, s.upv) && Newborn(s, r, o) && Sound(s)
    ensures Sound(Born(s, r, o)) && Gone(Born(s, r, o)) == Gone(s) - iset{r}
  {
    var s' := Born(s, r, o);
    assert Gone(s') == Gone(s) - iset{r};
    forall x | x in s'.heap && x !in Gone(s') ensures Clear(s'.heap, s'.upv, Gone(s'), s'.heap[x]) {
      if x == r {
        BornSelf(s, r, o, Gone(s'));
      } else {
        ClearAntitone(s.heap, s.upv, Gone(s), Gone(s'), s.heap[x]);
        BornClear(s, r, o, Gone(s'), x);
      }
    }
  }

  lemma BornRest(s: St, r: Ref, o: Object)
    requires RestOk(s) && Sound(s) && Newborn(s, r, o)
    ensures RestOk(Born(s, r, o)) && Sound(Born(s, r, o)) && Gone(Born(s, r, o)) == Gone(s) - iset{r}
  {
    BornWF(s, r, o);
    BornSound(s, r, o);
    hide HeapWF, Sound, Clear, ObjectWF;
  }

  lemma BornExist(s: St, r: Ref, o: Object)
    requires HeapWF(s.heap, s.upv) && Newborn(s, r, o) && Exist(s.heap, s.upv)
    ensures Exist(Born(s, r, o).heap, s.upv)
  {
    var s' := Born(s, r, o);
    forall x | x in s'.heap ensures Clear(s'.heap, s'.upv, Missing(s'.heap), s'.heap[x]) {
      if x == r {
        BornSelf(s, r, o, Missing(s'.heap));
      } else {
        ClearAntitone(s.heap, s.upv, Missing(s.heap), Missing(s'.heap), s.heap[x]);
        BornClear(s, r, o, Missing(s'.heap), x);
      }
    }
  }

  // A new object is white, but no black object leads to it yet.
  lemma BornBlack(s: St, r: Ref, o: Object)
    requires HeapWF(s.heap, s.upv) && r !in s.heap && Exist(s.heap, s.upv) && s.color.Keys == s.heap.Keys
    requires BlackInv(s.heap, s.upv, s.color, Flagged, s.loc, {}, s.stuck)
    ensures BlackInv(Born(s, r, o).heap, s.upv, Born(s, r, o).color, Flagged, Born(s, r, o).loc, {}, s.stuck)
  {
    var s' := Born(s, r, o);
    var W, W' := Whites(s.color), Whites(s'.color);
    assert W' == W + iset{r} && r in Missing(s.heap);
    forall x | x in s'.heap && x in s'.color && x !in s.stuck && s'.color[x].Black?
      ensures BlackOk(s'.heap, s'.upv, W', Flagged, s'.loc, {}, s'.heap[x])
    {
      assert BlackOk(s.heap, s.upv, W, Flagged, s.loc, {}, s.heap[x]) && Clear(s.heap, s.upv, Missing(s.heap), s.heap[x]);
      BornBlackOne(s, r, o, x);
    }
  }

  lemma BornBlackOne(s: St, r: Ref, o: Object, x: Ref)
    requires HeapWF(s.heap, s.upv) && r !in s.heap && x in s.heap
    requires Whites(Born(s, r, o).color) == Whites(s.color) + iset{r}
    requires BlackOk(s.heap, s.upv, Whites(s.color), Flagged, s.loc, {}, s.heap[x])
    requires Clear(s.heap, s.upv, Missing(s.heap), s.heap[x])
    ensures BlackOk(Born(s, r, o).heap, s.upv, Whites(Born(s, r, o).color), Flagged, Born(s, r, o).loc, {}, s.heap[x])
  {
    assert r in Missing(s.heap);
    var W' := Whites(s.color) + iset{r};
    match s.heap[x]
    case Table(_, _, _, nodes) =>
      forall i | 0 <= i < |nodes| ensures NodeClear(W', nodes[i]) {
        assert NodeClear(Whites(s.color), nodes[i]) && NodeClear(Missing(s.heap), nodes[i]);
      }
    case LClosure(_, ids) =>
      BornValues(s, r, o);
      assert ObjectWF(s.upv, x, s.heap[x]);
      forall i | 0 <= i < |ids| && ids[i].Some?
        ensures UvBlack(Born(s, r, o).heap, s.upv, W', Flagged, Born(s, r, o).loc, {}, ids[i].value)
      {
        assert UvBlack(s.heap, s.upv, Whites(s.color), Flagged, s.loc, {}, ids[i].value);
        assert !In(Missing(s.heap), UvValue(s.heap, s.upv, ids[i].value));
      }
    case _ =>
  }

  lemma BornGray(s: St, r: Ref, o: Object)
    requires GrayInv(s.heap, s.color, false, s.fixed, s.loc, {}, s.stuck) && r !in s.heap && Exist(s.heap, s.upv)
    requires s.color.Keys == s.heap.Keys && s.loc.Keys == s.heap.Keys
    ensures GrayInv(Born(s, r, o).heap, Born(s, r, o).color, false, s.fixed, Born(s, r, o).loc, {}, s.stuck)
  {
    var s' := Born(s, r, o);
    assert Whites(s'.color) == Whites(s.color) + iset{r} && r in Missing(s.heap);
    forall x | x in s'.heap && x in s'.color && x in s'.loc && x !in s.stuck && s'.color[x].Gray?
      ensures GrayOk(Whites(s'.color), false, s.fixed, s'.loc[x], x, s'.heap[x])
    {
      assert GrayOk(Whites(s.color), false, s.fixed, s.loc[x], x, s.heap[x]) && Clear(s.heap, s.upv, Missing(s.heap), s.heap[x]);
    }
  }

  lemma BornLists(s: St, r: Ref, o: Object)
    requires Lists(s) && LocsOk(s.heap, s.color, s.loc) && r !in s.heap
    ensures Lists(Born(s, r, o))
  {
    hide LocOk, ListIs;
    var loc' := Born(s, r, o).loc;
    ListBorn(s.loc, GrayL, s.gray, r);
    ListBorn(s.loc, AgainL, s.again, r);
    ListBorn(s.loc, WeakL, s.weak, r);
    ListBorn(s.loc, EphL, s.ephemeron, r);
    ListBorn(s.loc, WorkL, s.work, r);
    ListBorn(Merged(s.loc), AllWeakL, s.allweak, r);
    assert Merged(loc') == Merged(s.loc)[r := NoList];
  }

  lemma BornLocs(s: St, r: Ref, o: Object)
    requires LocsOk(s.heap, s.color, s.loc) && r !in s.heap
    ensures LocsOk(Born(s, r, o).heap, Born(s, r, o).color, Born(s, r, o).loc)
  {}

  lemma ListBorn(loc: Locs, l: Loc, xs: seq<Ref>, r: Ref)
    requires ListIs(loc, l, xs) && r !in loc && l != NoList
    ensures ListIs(loc[r := NoList], l, xs)
  {}

  lemma BornRemains(s: St, r: Ref, o: Object)
    requires Newborn(s, r, o) && s.color.Keys == s.heap.Keys
    requires NoDead(s.color, s.white) && FixedOk(s.heap, s.color, s.fixed)
    requires StuckOk(s.heap, s.color, s.stuck) && StuckPlaces(s.loc, s.stuck)
    requires TwupsOk(s.heap, s.color, s.loc, s.twups, false, false, {}) && MarkedWithin(s.color, s.bound)
    ensures var s' := Born(s, r, o);
      && NoDead(s'.color, s'.white) && FixedOk(s'.heap, s'.color, s'.fixed)
      && StuckOk(s'.heap, s'.color, s'.stuck) && StuckPlaces(s'.loc, s'.stuck)
      && TwupsOk(s'.heap, s'.color, s'.loc, s'.twups, false, false, {}) && MarkedWithin(s'.color, s'.bound)
  {}

  lemma BornMark(s: St, r: Ref, o: Object)
    requires MarkInv(s, {}) && !s.inside && !s.remarked && s.bound == s.heap.Keys && Newborn(s, r, o)
    ensures MarkInv(Born(s, r, o), {})
  {
    hide HeapWF, Exist, Lists, NoDead, FixedOk, TwupsOk, StuckOk, StuckPlaces, BlackInv, GrayInv, BoundClosed, MarkedWithin, Clear, ObjectWF, LocOk;
    var s' := Born(s, r, o);
    BornWF(s, r, o);
    BornExist(s, r, o);
    BornBlack(s, r, o);
    BornGray(s, r, o);
    BornLists(s, r, o);
    BornLocs(s, r, o);
    BornRemains(s, r, o);
    AllClosed(s'.heap, s'.upv, s'.stuck);
    hide HeapWF, Exist, Lists, LocsOk, NoDead, FixedOk, TwupsOk, StuckOk, StuckPlaces, BlackInv, GrayInv, BoundClosed, MarkedWithin, Newborn;
    assert s'.bound == s'.heap.Keys;
  }

  // A position inside the list that a new head is put before.
  function Shifted(p: GcPhase, sweepgc: Option<nat>): Option<nat> {
    if p == SwpAllGc && sweepgc.Some? then Some(sweepgc.value + 1) else sweepgc
  }

  ghost function BornIn(m: Mach, r: Ref, o: Object): Mach {
    m.(st := Born(m.st, r, o), allgc := [r] + m.allgc, sweepgc := Shifted(m.phase, m.sweepgc))
  }

  lemma BornRoots(m: Mach, r: Ref, o: Object)
    requires RootsLive(m) && Partition(m) && r !in m.st.heap
    ensures RootsLive(BornIn(m, r, o)) && Partition(BornIn(m, r, o)) && m.mainthread != r
  {
    var m' := BornIn(m, r, o);
    assert forall x :: x in Gone(m'.st) ==> x in Gone(m.st);
    assert m'.st.heap.Keys == m.st.heap.Keys + {r};
    assert multiset(m'.st.heap.Keys) == multiset{r} + multiset(m.st.heap.Keys);
    assert multiset(m'.allgc) == multiset{r} + multiset(m.allgc);
  }

  lemma BornSwept(m: Mach, r: Ref, o: Object)
    requires Swept(m)
    ensures Swept(BornIn(m, r, o))
  {}

  lemma BornInv(m: Mach, r: Ref, o: Object)
    requires Inv(m) && Newborn(m.st, r, o)
    ensures Inv(BornIn(m, r, o))
  {
    hide Inv, RootsLive, Partition, Swept, RestOk, Sound, MarkInv, Newborn;
    BornFacts(m.st, r, o);
    if KeepInvariant(m.phase) {
      InvMark(m);
      BornRoots(m, r, o);
      MainMarked(m.st, m.mainthread, r, o);
      BornMark(m.st, r, o);
      InvMark(BornIn(m, r, o));
    } else {
      InvRest(m);
      BornRoots(m, r, o);
      BornRest(m.st, r, o);
      BornSwept(m, r, o);
      InvRest(BornIn(m, r, o));
    }
  }

  lemma BornFacts(s: St, r: Ref, o: Object)
    requires Newborn(s, r, o)
    ensures r !in s.heap
  {}

  lemma MainMarked(s: St, main: Ref, r: Ref, o: Object)
    requires MarkInv(s, {}) && !IsWhite(s.color, main) && r !in s.heap && s.bound == s.heap.Keys
    ensures main != r ==> !IsWhite(Born(s, r, o).color, main)
    ensures Born(s, r, o).bound == Born(s, r, o).heap.Keys
  {
    hide MarkInv;
  }

  method Allocate(g: GlobalState, r: Ref, o: Object)
    modifies g`heap, g`color, g`loc, g`bound
    ensures g.View() == Born(old(g.View()), r, o)
  {
    g.heap := g.heap[r := o];
    g.color := g.color[r := White(g.currentwhite)];
    g.loc := g.loc[r := NoList];
    g.bound := g.bound + {r};
  }

  // A new object, white, at the head of 'allgc'.
  method NewObject(g: GlobalState, r: Ref, o: Object)
    requires Newborn(g.View(), r, o) && Inv(Snap(g))
    modifies g
    ensures Snap(g) == BornIn(old(Snap(g)), r, o)
    ensures Inv(Snap(g))
  {
    hide Inv, Newborn, Born;
    BornInv(Snap(g), r, o);
    Allocate(g, r, o);
    g.allgc := [r] + g.allgc;
    g.sweepgc := Shifted(g.gcstate, g.sweepgc);
  }

  // -------------------------------------------------------------------- internshrstr

  lemma RevivedRest(s: St, r: Ref)
    requires RestOk(s) && Sound(s) && r in s.heap && s.heap[r].Str? && Dead(s, r)
    ensures RestOk(Whiten(s, r)) && Sound(Whiten(s, r)) && Gone(Whiten(s, r)) == Gone(s) - iset{r}
  {
    var s' := Whiten(s, r);
    assert Gone(s') == Gone(s) - iset{r};
    forall x | x in s'.heap && x !in Gone(s') ensures Clear(s'.heap, s'.upv, Gone(s'), s'.heap[x]) {
      if x != r { ClearAntitone(s.heap, s.upv, Gone(s), Gone(s'), s.heap[x]); }
    }
    hide HeapWF, Clear;
  }

  lemma NothingDead(s: St, r: Ref)
    requires MarkInv(s, {})
    ensures !Dead(s, r)
  {}

  lemma RevivedInv(m: Mach, r: Ref)
    requires Inv(m) && r in m.st.heap && m.st.heap[r].Str? && Dead(m.st, r)
    ensures Inv(m.(st := Whiten(m.st, r))) && r !in Gone(Whiten(m.st, r))
  {
    hide Inv, Partition, Swept, RestOk, MarkInv, Sound;
    if KeepInvariant(m.phase) {
      InvMark(m);
      NothingDead(m.st, r);
      assert false;
    } else {
      InvRest(m);
      RevivedRest(m.st, r);
      WhitenSwept(m, r);
      assert Partition(m.(st := Whiten(m.st, r))) by { WhitenPartition(m, r); }
      InvRest(m.(st := Whiten(m.st, r)));
    }
  }

  lemma WhitenPartition(m: Mach, r: Ref)
    requires Partition(m)
    ensures Partition(m.(st := Whiten(m.st, r)))
  {}

  // A short string found in the string table may be dead: it is resurrected.
  method InternHit(g: GlobalState, r: Ref)
    requires r in g.heap && g.heap[r].Str? && Inv(Snap(g))
    modifies g`color, g`stuck
    ensures Snap(g) == old(if Dead(g.View(), r) then Snap(g).(st := Whiten(g.View(), r)) else Snap(g))
    ensures r !in Gone(g.View()) && Inv(Snap(g))
  {
    hide Inv;
    StringColor(Snap(g), r);
    if g.color[r] == White(!g.currentwhite) {
      RevivedInv(Snap(g), r);
      MakeWhite(g, r, true);  // changewhite
    }
  }

  lemma StringColor(m: Mach, r: Ref)
    requires Inv(m) && r in m.st.heap
    ensures r in m.st.color
  {
    hide RootsLive, Partition, Swept, Sound;
  }

  // --------------------------------------------------------------------------- roots

  lemma RootsInv(m: Mach, m': Mach)
    requires Inv(m) && m' == m.(running := m'.running, mt := m'.mt, registry := m'.registry)
    requires RootsClear(Gone(m.st), m'.running, m'.registry, m'.mt) && IsThread(m.st.heap, m'.running)
    ensures Inv(m')
  {
    hide MarkInv, RestOk, Sound, RootsClear;
  }

  lemma RootsAre(m: Mach)
    requires Inv(m)
    ensures RootsClear(Gone(m.st), m.running, m.registry, m.mt) && IsThread(m.st.heap, m.running)
  {}

  // lua_setmetatable on a basic type.
  method SetTypeMetatable(g: GlobalState, i: nat, mt: Option<Ref>)
    requires i < |g.mt| && (mt.Some? ==> Usable(g.View(), Obj(mt.value))) && Inv(Snap(g))
    modifies g`mt
    ensures g.mt == old(g.mt)[i := mt] && Inv(Snap(g))
  {
    hide Inv;
    RootsAre(Snap(g));
    RootsInv(Snap(g), Snap(g).(mt := g.mt[i := mt]));
    g.mt := g.mt[i := mt];
  }

  // Another thread runs.
  method Resume(g: GlobalState, th: Ref)
    requires Names(Snap(g), th) && g.heap[th].Thread? && Inv(Snap(g))
    modifies g`running
    ensures g.running == th && Inv(Snap(g))
  {
    hide Inv;
    RootsAre(Snap(g));
    RootsInv(Snap(g), Snap(g).(running := th));
    g.running := th;
  }

  // Assignment to the registry.
  method SetRegistry(g: GlobalState, v: Value)
    requires Usable(g.View(), v) && Inv(Snap(g))
    modifies g`registry
    ensures g.registry == v && Inv(Snap(g))
  {
    hide Inv;
    RootsAre(Snap(g));
    RootsInv(Snap(g), Snap(g).(registry := v));
    g.registry := v;
  }

  // ------------------------------------------------------------------------ luaC_fix

  ghost function Fixed(m: Mach): Mach
    requires m.allgc != []
  {
    var o := m.allgc[0];
    m.(allgc := m.allgc[1..], st := m.st.(color := m.st.color[o := Gray], fixed := [o] + m.st.fixed))
  }

  lemma FixedPartition(m: Mach)
    requires Partition(m) && m.allgc != []
    ensures Partition(Fixed(m)) && m.allgc[0] in m.st.heap && m.allgc[0] != m.mainthread
  {
    assert m.allgc == [m.allgc[0]] + m.allgc[1..];
    Unique(m, AllGc, 0);
  }

  lemma FixedGone(m: Mach)
    requires RootsLive(m) && m.allgc != [] && m.allgc[0] in m.st.heap && m.allgc[0] !in Gone(m.st)
    ensures Gone(Fixed(m).st) == Gone(m.st) && RootsLive(Fixed(m))
  {
    assert Gone(Fixed(m).st) == Gone(m.st);
  }

  lemma FixedRest(m: Mach)
    requires RestOk(m.st) && Sound(m.st) && Swept(m) && m.phase == Pause && m.allgc != [] && m.allgc[0] !in Gone(m.st)
    requires m.allgc[0] in m.st.heap && m.st.heap[m.allgc[0]].Str? && m.allgc[0] != m.mainthread
    requires Gone(Fixed(m).st) == Gone(m.st) && m.allgc[0] !in m.allgc[1..] && m.allgc[0] !in m.finobj && m.allgc[0] !in m.tobefnz
    ensures RestOk(Fixed(m).st) && Sound(Fixed(m).st) && Swept(Fixed(m))
  {
    hide HeapWF, Clear;
    assert forall i :: 0 <= i < |m.allgc| - 1 ==> m.allgc[1..][i] == m.allgc[i + 1];
  }

  lemma FixedInv(m: Mach)
    requires Inv(m) && m.phase == Pause && m.allgc != [] && m.allgc[0] !in Gone(m.st)
    requires m.allgc[0] in m.st.heap && m.st.heap[m.allgc[0]].Str?
    ensures Inv(Fixed(m))
  {
    hide Inv, RootsLive, Partition, RestOk, Sound, Swept;
    InvRest(m);
    FixedPartition(m);
    FixedGone(m);
    FixedUnique(m);
    FixedRest(m);
    InvRest(Fixed(m));
  }

  lemma FixedUnique(m: Mach)
    requires Partition(m) && m.allgc != []
    ensures m.allgc[0] !in m.allgc[1..] && m.allgc[0] !in m.finobj && m.allgc[0] !in m.tobefnz
  {
    Unique(m, AllGc, 0);
    assert Without(m.allgc, 0) == m.allgc[1..];
  }

  // A string that has just been created will never be collected. This is only done
  // before the collector is started.
  method Fix(g: GlobalState, o: Ref)
    requires g.gcstate == Pause && g.allgc != [] && g.allgc[0] == o && Inv(Snap(g))
    requires o in g.heap && g.heap[o].Str? && o !in Gone(g.View())
    modifies g`allgc, g`color, g`fixedgc
    ensures g.fixedgc == [o] + old(g.fixedgc) && g.allgc == old(g.allgc)[1..] && Snap(g) == Fixed(old(Snap(g)))
    ensures Inv(Snap(g))
  {
    hide Inv;
    FixedInv(Snap(g));
    g.color := g.color[o := Gray];
    g.allgc := g.allgc[1..];
    g.fixedgc := [o] + g.fixedgc;
  }

  // ------------------------------------------------------------- luaC_checkfinalizer

  // The position of the sweep after the object at position i of 'allgc' has moved to
  // the head of 'finobj'.
  function PosAfterMove(p: GcPhase, sweepgc: Option<nat>, i: nat): Option<nat> {
    if sweepgc.None? then None
    else if p == SwpAllGc && i < sweepgc.value then Some(sweepgc.value - 1)
    else if p == SwpFinObj && sweepgc.value > 0 then Some(sweepgc.value + 1)
    else sweepgc
  }

  ghost function MovedTo(m: Mach, i: nat): Mach
    requires i < |m.allgc|
  {
    m.(allgc := Without(m.allgc, i), finobj := [m.allgc[i]] + m.finobj, sweepgc := PosAfterMove(m.phase, m.sweepgc, i))
  }

  // In a sweep phase the object has been made white, and the position is not in it.
  ghost predicate Movable(m: Mach, i: nat) {
    && i < |m.allgc| && m.allgc[i] !in Gone(m.st) && Finalizable(m.st.heap, [m.allgc[i]])
    && (IsSweepPhase(m.phase) ==> SweptTo(m.st, [m.allgc[i]], 1))
    && (m.phase == SwpAllGc ==> m.sweepgc != Some(i + 1))
  }

  lemma MoveRoots(m: Mach, i: nat)
    requires RootsLive(m) && Partition(m) && Movable(m, i)
    ensures RootsLive(MovedTo(m, i)) && Partition(MovedTo(m, i))
  {
    WithoutMultiset(m.allgc, i);
    assert multiset(MovedTo(m, i).finobj) == multiset{m.allgc[i]} + multiset(m.finobj);
    assert m.allgc[i] in [m.allgc[i]];
  }

  lemma MoveSwept(m: Mach, i: nat)
    requires Swept(m) && Movable(m, i) && !KeepInvariant(m.phase) && m.phase != InsideAtomic
    ensures Swept(MovedTo(m, i))
  {
    var m' := MovedTo(m, i);
    assert forall j :: 0 <= j < i ==> m'.allgc[j] == m.allgc[j];
    assert forall j :: i <= j < |m'.allgc| ==> m'.allgc[j] == m.allgc[j + 1];
    assert !IsSweepPhase(m.phase) ==> SweptTo(m.st, m.allgc, |m.allgc|);
  }

  lemma MoveInv(m: Mach, i: nat)
    requires i < |m.allgc| && Inv(m) && Movable(m, i)
    ensures Inv(MovedTo(m, i))
  {
    hide Inv, RootsLive, Partition, Swept, RestOk, Sound, MarkInv, Movable;
    if KeepInvariant(m.phase) {
      InvMark(m);
      MoveRoots(m, i);
      InvMark(MovedTo(m, i));
    } else {
      InvRest(m);
      MoveRoots(m, i);
      MoveSwept(m, i);
      InvRest(MovedTo(m, i));
    }
  }

  // The sweep of 'allgc' has gone on, out of the object at position i and through the next
  // one that is not dead.
  ghost predicate Onward(m: Mach, m': Mach, i: nat) {
    && SamePrefix(m.allgc, m'.allgc, i + 1) && m'.phase == m.phase && (m'.sweepgc == None || m'.sweepgc == Some(i + 2))
    && Unswept(m'.sweepgc, m'.allgc) <= Unswept(m.sweepgc, m.allgc)
  }

  // The sweep position moves on, out of the object at position i.
  method SweepPast(g: GlobalState, i: nat)
    requires g.gcstate == SwpAllGc && g.sweepgc == Some(i + 1) && i < |g.allgc| && Inv(Snap(g))
    requires Finalizable(g.heap, [g.allgc[i]])
    modifies g`heap, g`upv, g`color, g`loc, g`bound, g`stuck, g`allgc, g`finobj, g`tobefnz, g`sweepgc
    ensures i < |g.allgc| && g.allgc[i] == old(g.allgc)[i] && g.finobj == old(g.finobj) && g.tobefnz == old(g.tobefnz)
    ensures Movable(Snap(g), i) && Sweeping(old(Snap(g)), Snap(g)) && Onward(old(Snap(g)), Snap(g), i)
    ensures Inv(Snap(g))
  {
    hide Inv, Orderly, Sweeping, SweepInv, Movable, Sound, Finalizable, SamePrefix;
    ghost var m := Snap(g);
    InvRest(m);
    SweepOnward(g);
    PrefixAt(m.allgc, g.allgc, i);
    SweptInv(m, Snap(g));
    SweptObject(m, Snap(g), i);
  }

  lemma PrefixAt(l: seq<Ref>, l': seq<Ref>, i: nat)
    requires SamePrefix(l, l', i + 1)
    ensures i < |l| && i < |l'| && l'[i] == l[i]
  {
    assert l'[i] == l'[..i + 1][i] && l[i] == l[..i + 1][i];
  }

  lemma SweptObject(m0: Mach, m: Mach, i: nat)
    requires SweepInv(m, AllGc, Pos(m.sweepgc, m.allgc)) && i < |m.allgc| && i < Pos(m.sweepgc, m.allgc)
    requires m.sweepgc != Some(i + 1) && Sweeping(m0, m) && Finalizable(m0.st.heap, [m.allgc[i]])
    ensures Movable(m, i)
  {
    hide RestOk, Partition, RootsLive, Gone;
    Unique(m, AllGc, i);
    SweepFacts(m, AllGc, Pos(m.sweepgc, m.allgc));
    assert m.allgc[i] in [m.allgc[i]] && m.allgc[i] in m.st.color;
    SweptAlive(m, i);
  }

  lemma SweptAlive(m: Mach, i: nat)
    requires RestOk(m.st) && i < |m.allgc| && m.allgc[i] in m.st.heap && SweptTo(m.st, m.allgc, i + 1)
    ensures m.allgc[i] !in Gone(m.st)
  {
    hide HeapWF, FixedOk, TwupsLive;
  }

  // "Sweeps" the object, and moves the sweep position out of it.
  method SweepOut(g: GlobalState, o: Ref, i: nat)
    requires IsSweepPhase(g.gcstate) && Names(Snap(g), o) && i < |g.allgc| && g.allgc[i] == o && Inv(Snap(g))
    requires g.heap[o].Table? || g.heap[o].Udata?
    modifies g`heap, g`upv, g`color, g`loc, g`bound, g`stuck, g`allgc, g`finobj, g`tobefnz, g`sweepgc
    ensures Movable(Snap(g), i) && SweptOut(old(Snap(g)), Snap(g), o, i)
    ensures Inv(Snap(g))
  {
    hide Inv, Movable, Barred, Sweeping, Gone, Unswept;
    ghost var m := Snap(g);
    WhitenInv(m, o);
    WhitenSweeping(m, o);
    MakeWhite(g, o, true);
    ghost var m1 := Snap(g);
    if g.gcstate == SwpAllGc && g.sweepgc == Some(i + 1) {
      SweepPast(g, i);
      SweepingTransitive(m, m1, Snap(g));
    } else {
      WhitenedObject(Snap(g), i);
    }
  }

  lemma WhitenSweeping(m: Mach, o: Ref)
    requires Barred(m, m.(st := Whiten(m.st, o)), {})
    ensures Sweeping(m, m.(st := Whiten(m.st, o)))
  {}

  lemma WhitenedObject(m: Mach, i: nat)
    requires i < |m.allgc| && m.allgc[i] in m.st.heap && m.allgc[i] in m.st.color && m.st.color[m.allgc[i]] == White(m.st.white)
    requires m.st.heap[m.allgc[i]].Table? || m.st.heap[m.allgc[i]].Udata?
    requires m.phase == SwpAllGc ==> m.sweepgc != Some(i + 1)
    ensures Movable(m, i)
  {}

  lemma LiveObject(m: Mach, i: nat)
    requires i < |m.allgc| && Names(m, m.allgc[i]) && !IsSweepPhase(m.phase)
    requires m.st.heap[m.allgc[i]].Table? || m.st.heap[m.allgc[i]].Udata?
    ensures Movable(m, i)
  {}

  // The object is searched for in 'allgc' and moved to 'finobj'. An object that has
  // been moved before is not in 'allgc'.
  method CheckFinalizer(g: GlobalState, o: Ref)
    requires Names(Snap(g), o) && (g.heap[o].Table? || g.heap[o].Udata?) && Inv(Snap(g))
    modifies g`heap, g`upv, g`color, g`loc, g`bound, g`stuck, g`allgc, g`finobj, g`tobefnz, g`sweepgc
    ensures Relisted(old(Snap(g)), Snap(g), o)
    ensures g.finobj == if o in old(g.allgc) then [o] + old(g.finobj) else old(g.finobj)
    ensures !IsSweepPhase(g.gcstate) ==> g.View() == old(g.View()) && g.tobefnz == old(g.tobefnz) && g.sweepgc == old(g.sweepgc)
    ensures !IsSweepPhase(g.gcstate) ==> forall r :: r in old(g.allgc) && r != o ==> r in g.allgc
    ensures Inv(Snap(g))
  {
    hide Inv, Movable, Sweeping, Relisted, Onward;
    ghost var m := Snap(g);
    if o !in g.allgc {
      RelistedNot(m, o);
      return;
    }
    var i := FindObject(g.allgc, o);
    SweepingReflexive(m);
    if IsSweepPhase(g.gcstate) {
      SweepOut(g, o, i);
    } else {
      LiveObject(Snap(g), i);
    }
    RelistedMoved(m, Snap(g), o, i);
    MoveToFinobj(g, i);
  }

  // The object at position i is ready to be moved: in a sweep phase it has been made
  // white, and the sweep has gone on if its position was in the object.
  ghost predicate SweptOut(m: Mach, m': Mach, o: Ref, i: nat) {
    && i < |m.allgc| && m.allgc[i] == o && i < |m'.allgc| && m'.allgc[i] == o
    && m'.finobj == m.finobj && m'.tobefnz == m.tobefnz && m'.phase == m.phase && Sweeping(m, m')
    && if !IsSweepPhase(m.phase) then m' == m
       else if m.phase == SwpAllGc && m.sweepgc == Some(i + 1) then Onward(m, m', i)
       else m' == m.(st := Whiten(m.st, o))
  }

  // The object is in 'finobj' now, if it was in 'allgc'.
  ghost predicate Relisted(m: Mach, m': Mach, o: Ref) {
    if o !in m.allgc then m' == m else exists m1, i: nat :: SweptOut(m, m1, o, i) && m' == MovedTo(m1, i)
  }

  lemma RelistedNot(m: Mach, o: Ref)
    requires o !in m.allgc
    ensures Relisted(m, m, o)
  {}

  lemma RelistedMoved(m: Mach, m1: Mach, o: Ref, i: nat)
    requires SweptOut(m, m1, o, i)
    ensures Relisted(m, MovedTo(m1, i), o) && m1.finobj == m.finobj && m1.allgc[i] == o
    ensures !IsSweepPhase(m.phase) ==> m1 == m
  {
    hide Sweeping, Onward;
    assert m.allgc[i] in m.allgc;
  }

  method MoveToFinobj(g: GlobalState, i: nat)
    requires i < |g.allgc| && Movable(Snap(g), i) && Inv(Snap(g))
    modifies g`allgc, g`finobj, g`sweepgc
    ensures Snap(g) == MovedTo(old(Snap(g)), i) && g.finobj == [old(g.allgc[i])] + old(g.finobj)
    ensures forall r :: r in old(g.allgc) && r != old(g.allgc[i]) ==> r in g.allgc
    ensures g.sweepgc == PosAfterMove(g.gcstate, old(g.sweepgc), i)
    ensures Inv(Snap(g))
  {
    hide Inv, Movable;
    MoveInv(Snap(g), i);
    WithoutKeeps(g.allgc, i);
    g.finobj := [g.allgc[i]] + g.finobj;
    g.sweepgc := PosAfterMove(g.gcstate, g.sweepgc, i);
    g.allgc := g.allgc[..i] + g.allgc[i + 1..];
  }

  lemma WithoutKeeps(l: seq<Ref>, i: nat)
    requires i < |l|
    ensures forall r :: r in l && r != l[i] ==> r in Without(l, i)
  {
    assert l == l[..i] + [l[i]] + l[i + 1..];
  }

  method FindObject(l: seq<Ref>, o: Ref) returns (i: nat)
    requires o in l
    ensures i < |l| && l[i] == o
  {
    i := 0;
    while l[i] != o
      invariant i < |l| && o !in l[..i]
      decreases |l| - i
    {
      assert l == l[..i] + [l[i]] + l[i + 1..];
      assert l[..i + 1] == l[..i] + [l[i]];
      i := i + 1;
    }
  }
}
