// Storing into an object: what a store must respect for the invariant to be kept, and
// the three write barriers that make it so.

module GcStore {
  import opened GcHeap
  import opened GcInvariants
  import opened GcState
  import opened GcSteps
  import opened GcMark
  import opened GcConverge
  import opened GcMachine
  import opened GcSweep
  import opened GcCycle
  import opened GcFinalize

  // A value the program may use: what it can reach is never dead (ReachableAlive).
  ghost predicate Usable(s: St, v: Value) {
    !In(Gone(s), v)
  }

  // ------------------------------------------------------------------------- stores

  ghost predicate SameKind(o: Object, o': Object) {
    match o
    case Str => o' == o
    case Udata(_, _) => o'.Udata?
    case Table(_, _, _, _) => o'.Table?
    case LClosure(_, _) => o'.LClosure?
    case CClosure(_) => o'.CClosure?
    case Thread(_, _, ids) => o'.Thread? && o'.openupval == ids
    case Proto(_, _, _) => o'.Proto?
  }

  ghost function Stored(s: St, r: Ref, o': Object): St {
    s.(heap := s.heap[r := o'])
  }

  ghost predicate WellStored(s: St, r: Ref, o': Object) {
    && r in s.heap && r !in Gone(s) && SameKind(s.heap[r], o')
    && ObjectWF(s.upv, r, o') && Clear(Stored(s, r, o').heap, s.upv, Gone(s), o')
  }

  // In a marking phase the object must be as its colour says.
  ghost predicate ColorOk(s: St, r: Ref, o': Object)
    requires r in s.color && r in s.loc
  {
    r !in s.stuck ==>
      && (s.color[r].Black? ==> BlackOk(Stored(s, r, o').heap, s.upv, Whites(s.color), Flagged, s.loc, {}, o'))
      && (s.color[r].Gray? ==> GrayOk(Whites(s.color), false, s.fixed, s.loc[r], r, o'))
  }

  lemma StoreClear(s: St, r: Ref, o': Object, bad: iset<Ref>, x: Ref)
    requires r in s.heap && SameKind(s.heap[r], o') && Clear(Stored(s, r, o').heap, s.upv, bad, o')
    requires x in s.heap && x != r && Clear(s.heap, s.upv, bad, s.heap[x])
    ensures Clear(Stored(s, r, o').heap, s.upv, bad, s.heap[x])
  {
    var h' := Stored(s, r, o').heap;
    if s.heap[x].LClosure? {
      var ids := s.heap[x].upvals;
      forall i | 0 <= i < |ids| && ids[i].Some? ensures !In(bad, UvValue(h', s.upv, ids[i].value)) {
        var id := ids[i].value;
        assert !In(bad, UvValue(s.heap, s.upv, id));
        if id in s.upv && s.upv[id].Open? && s.upv[id].thread == r {
          assert o'.Thread? ==> NoneIn(bad, o'.stack);
        }
      }
    }
  }

  lemma StoreWF(s: St, r: Ref, o': Object)
    requires HeapWF(s.heap, s.upv) && r in s.heap && SameKind(s.heap[r], o') && ObjectWF(s.upv, r, o')
    ensures HeapWF(Stored(s, r, o').heap, s.upv)
  {
    forall id | id in s.upv ensures UvWF(Stored(s, r, o').heap, id, s.upv[id]) {
      assert UvWF(s.heap, id, s.upv[id]);
    }
  }

  lemma StoreRest(s: St, r: Ref, o': Object)
    requires RestOk(s) && Sound(s) && WellStored(s, r, o')
    ensures RestOk(Stored(s, r, o')) && Sound(Stored(s, r, o')) && Gone(Stored(s, r, o')) == Gone(s)
  {
    var s' := Stored(s, r, o');
    assert Gone(s') == Gone(s);
    StoreWF(s, r, o');
    hide HeapWF, FixedOk, StuckOk;
    forall x | x in s'.heap && x !in Gone(s') ensures Clear(s'.heap, s'.upv, Gone(s'), s'.heap[x]) {
      if x != r { StoreClear(s, r, o', Gone(s), x); }
    }
    hide Clear;
    assert Sound(s');
    assert TwupsLive(s');
    StoreKinds(s, r, o');
  }

  lemma StoreKinds(s: St, r: Ref, o': Object)
    requires FixedOk(s.heap, s.color, s.fixed) && StuckOk(s.heap, s.color, s.stuck) && r in s.heap && SameKind(s.heap[r], o')
    ensures FixedOk(Stored(s, r, o').heap, s.color, s.fixed) && StuckOk(Stored(s, r, o').heap, s.color, s.stuck)
  {}

  lemma StoreBlack(s: St, r: Ref, o': Object)
    requires BlackInv(s.heap, s.upv, s.color, Flagged, s.loc, {}, s.stuck) && r in s.heap && r in s.color && r in s.loc
    requires ColorOk(s, r, o') && SameKind(s.heap[r], o')
    requires Exist(s.heap, s.upv)
    ensures BlackInv(Stored(s, r, o').heap, s.upv, s.color, Flagged, s.loc, {}, s.stuck)
  {
    var h' := Stored(s, r, o').heap;
    forall x | x in h' && x in s.color && x !in s.stuck && s.color[x].Black?
      ensures BlackOk(h', s.upv, Whites(s.color), Flagged, s.loc, {}, h'[x])
    {
      if x != r {
        assert BlackOk(s.heap, s.upv, Whites(s.color), Flagged, s.loc, {}, s.heap[x]);
        if s.heap[x].LClosure? {
          forall i | 0 <= i < |s.heap[x].upvals| && s.heap[x].upvals[i].Some?
            ensures UvBlack(h', s.upv, Whites(s.color), Flagged, s.loc, {}, s.heap[x].upvals[i].value)
          {
            assert UvBlack(s.heap, s.upv, Whites(s.color), Flagged, s.loc, {}, s.heap[x].upvals[i].value);
          }
        }
      }
    }
  }

  lemma StoreGray(s: St, r: Ref, o': Object)
    requires GrayInv(s.heap, s.color, false, s.fixed, s.loc, {}, s.stuck) && r in s.heap && r in s.color && r in s.loc && ColorOk(s, r, o')
    ensures GrayInv(Stored(s, r, o').heap, s.color, false, s.fixed, s.loc, {}, s.stuck)
  {
    hide BlackOk, GrayOk;
  }

  // While the program runs, gray objects are in three lists only.
  lemma GrayLists(s: St, r: Ref)
    requires MarkInv(s, {}) && !s.inside && r in s.heap
    ensures r in s.loc && r in s.color && s.loc[r] in {NoList, GrayL, AgainL, AllWeakL}
    ensures s.color[r].Gray? && s.loc[r] == NoList && r !in s.stuck ==> s.heap[r].Str?
    ensures s.loc[r] == AllWeakL ==> s.heap[r].Table? && (r in s.stuck || !OptIn(Whites(s.color), s.heap[r].meta))
    ensures s.loc[r] != NoList ==> s.color[r].Gray?
  {
    assert s.color[r].Gray? && r !in s.stuck ==> GrayOk(Whites(s.color), s.inside, s.fixed, s.loc[r], r, s.heap[r]);
    hide HeapWF, Exist, NoDead, FixedOk, TwupsOk, StuckOk, BlackInv, GrayInv, BoundClosed, MarkedWithin, Lists;
  }

  lemma StoreLocs(s: St, r: Ref, o': Object)
    requires LocsOk(s.heap, s.color, s.loc) && r in s.heap && SameKind(s.heap[r], o')
    requires s.loc[r] in {NoList, GrayL, AgainL, AllWeakL}
    ensures LocsOk(Stored(s, r, o').heap, s.color, s.loc)
  {}

  lemma StoreMark(s: St, r: Ref, o': Object)
    requires MarkInv(s, {}) && !s.inside && !s.remarked && s.bound == s.heap.Keys && WellStored(s, r, o')
    requires r in s.color && r in s.loc && ColorOk(s, r, o')
    ensures MarkInv(Stored(s, r, o'), {})
  {
    var s' := Stored(s, r, o');
    MarkSound(s);
    StoreWF(s, r, o');
    StoreBlack(s, r, o');
    StoreGray(s, r, o');
    StoreExist(s, r, o');
    AllClosed(s'.heap, s'.upv, s'.stuck);
    StoreTwups(s, r, o');
    StoreKinds(s, r, o');
    GrayLists(s, r);
    hide HeapWF, Exist, Lists, TwupsOk, StuckOk, StuckPlaces, FixedOk, BlackInv, GrayInv, BoundClosed, MarkedWithin, NoDead, Sound, Clear, ColorOk;
    StoreLocs(s, r, o');
    hide LocsOk;
    assert s'.heap.Keys == s.heap.Keys;
  }

  lemma StoreExist(s: St, r: Ref, o': Object)
    requires Exist(s.heap, s.upv) && Gone(s) == Missing(s.heap) && WellStored(s, r, o')
    ensures Exist(Stored(s, r, o').heap, s.upv)
  {
    var s' := Stored(s, r, o');
    assert Missing(s'.heap) == Missing(s.heap);
    forall x | x in s'.heap ensures Clear(s'.heap, s'.upv, Missing(s'.heap), s'.heap[x]) {
      if x != r { StoreClear(s, r, o', Gone(s), x); }
    }
  }

  lemma StoreTwups(s: St, r: Ref, o': Object)
    requires TwupsOk(s.heap, s.color, s.loc, s.twups, false, false, {}) && r in s.heap && SameKind(s.heap[r], o')
    ensures TwupsOk(Stored(s, r, o').heap, s.color, s.loc, s.twups, false, false, {})
  {}

  // The object r is replaced by o'.
  ghost function Put(m: Mach, r: Ref, o': Object): Mach {
    m.(st := Stored(m.st, r, o'))
  }

  ghost predicate MayPut(m: Mach, r: Ref, o': Object) {
    WellStored(m.st, r, o') && (KeepInvariant(m.phase) ==> r in m.st.color && r in m.st.loc && ColorOk(m.st, r, o'))
  }

  lemma PutRoots(m: Mach, r: Ref, o': Object)
    requires RootsLive(m) && Partition(m) && WellStored(m.st, r, o')
    ensures RootsLive(Put(m, r, o')) && Partition(Put(m, r, o')) && Gone(Put(m, r, o').st) == Gone(m.st)
  {
    assert Gone(Put(m, r, o').st) == Gone(m.st);
    assert Put(m, r, o').st.heap.Keys == m.st.heap.Keys;
    hide Clear, ObjectWF;
  }

  // A store that respects the colour of the object keeps the invariant.
  lemma PutInv(m: Mach, r: Ref, o': Object)
    requires Inv(m) && MayPut(m, r, o')
    ensures Inv(Put(m, r, o'))
  {
    hide Inv, RootsLive, Partition, RestOk, Sound, WellStored, ColorOk, MarkInv;
    if KeepInvariant(m.phase) {
      InvMark(m);
      PutRoots(m, r, o');
      StoreMark(m.st, r, o');
      PutKeys(m, r, o');
      InvMark(Put(m, r, o'));
    } else {
      InvRest(m);
      PutRoots(m, r, o');
      StoreRest(m.st, r, o');
      InvRest(Put(m, r, o'));
    }
  }

  lemma PutKeys(m: Mach, r: Ref, o': Object)
    requires WellStored(m.st, r, o')
    ensures Put(m, r, o').st.heap.Keys == m.st.heap.Keys
  {}

  // What the invariant says of a single object that is not dead.
  lemma AsIs(m: Mach, r: Ref)
    requires Inv(m) && r in m.st.heap && r !in Gone(m.st)
    ensures MayPut(m, r, m.st.heap[r]) && r in m.st.color
  {
    assert Stored(m.st, r, m.st.heap[r]) == m.st;
    hide Inv, RootsLive, Partition;
    if KeepInvariant(m.phase) {
      InvMark(m);
      AsIsMark(m.st, r);
    } else {
      InvRest(m);
      AsIsRest(m.st, r);
    }
  }

  lemma AsIsRest(s: St, r: Ref)
    requires RestOk(s) && Sound(s) && r in s.heap && r !in Gone(s) && Stored(s, r, s.heap[r]) == s
    ensures WellStored(s, r, s.heap[r]) && r in s.color
  {}

  lemma AsIsMark(s: St, r: Ref)
    requires MarkInv(s, {}) && !s.inside && !s.remarked && r in s.heap && r !in Gone(s) && Stored(s, r, s.heap[r]) == s
    ensures WellStored(s, r, s.heap[r]) && r in s.color && r in s.loc && ColorOk(s, r, s.heap[r])
  {
    MarkSound(s);
    assert ObjectWF(s.upv, r, s.heap[r]) && Clear(s.heap, s.upv, Missing(s.heap), s.heap[r]);
    assert s.color[r].Gray? && r !in s.stuck ==> GrayOk(Whites(s.color), false, s.fixed, s.loc[r], r, s.heap[r]);
  }

  // ------------------------------------------------------------------ the barriers

  // After a barrier, no black object of a marking phase gets an unmarked value.
  ghost predicate Stainless(m: Mach, p: Ref, v: Value) {
    KeepInvariant(m.phase) && p in m.st.color && p !in m.st.stuck && m.st.color[p].Black? ==> !In(Whites(m.st.color), v)
  }

  // The heap and the upvalues are these now. Barriers may have linked objects, and marked
  // those of 'more' with what userdata among them lead to; only objects of 'stuck' are
  // stuck, and nothing else has changed.
  ghost predicate Becomes(m: Mach, m': Mach, h: Heap, u: Upvals, stuck: set<Ref>, more: set<Ref>) {
    && m' == m.(st := m'.st, grayagain := m'.grayagain)
    && m'.st == m.st.(heap := h, upv := u, color := m'.st.color, loc := m'.st.loc, gray := m'.st.gray,
                      again := m'.st.again, stuck := m'.st.stuck)
    && m'.st.stuck <= stuck && Gone(m'.st) == Gone(m.st)
    && (KeepInvariant(m.phase) ==>
          Whites(m'.st.color) <= Whites(m.st.color) && MarksFor(m.st.heap, m.st.color, m'.st.color, more))
  }

  // What a barrier may change.
  ghost predicate Barred(m: Mach, m': Mach, more: set<Ref>) {
    Becomes(m, m', m.st.heap, m.st.upv, m.st.stuck, more)
  }

  // A store after its barrier.
  lemma PutAfter(m: Mach, m1: Mach, r: Ref, o': Object, more: set<Ref>)
    requires Barred(m, m1, more) && r in m.st.heap
    ensures Becomes(m, Put(m1, r, o'), m.st.heap[r := o'], m.st.upv, m.st.stuck, more)
  {
    hide MarksFor;
    assert Gone(Put(m1, r, o').st) == Gone(m1.st);
  }

  lemma BarrierMarks(m: Mach, m': Mach, more: set<Ref>)
    requires MarksFor(m.st.heap, m.st.color, m'.st.color, more)
    requires Inv(m) && KeepInvariant(m.phase) && Marking(m.st, m'.st) && MarkInv(m'.st, {})
    requires m' == m.(st := m.st.(color := m'.st.color, loc := m'.st.loc, gray := m'.st.gray))
    ensures Inv(m') && Barred(m, m', more)
  {
    assert m.st.gray != [] ==> m'.st.gray != [];
    hide MarkInv, Marking, Inv, RootsLive, Partition, MarksFor;
    MarkFacts(m);
    MarkingProgress(m.st, m'.st);
    MarkSound(m.st);
    MarkSound(m'.st);
    ProgressInv(m, m');
  }

  // The object being pointed to is marked, in a marking phase.
  method MarkForward(g: GlobalState, v: Ref)
    requires KeepInvariant(g.gcstate) && IsWhite(g.color, v) && Inv(Snap(g))
    modifies g`color, g`gray, g`loc
    ensures !IsWhite(g.color, v) && Barred(old(Snap(g)), Snap(g), {v})
    ensures Inv(Snap(g))
  {
    hide Inv, MarkInv, Marking, Barred, MarksFor;
    MarkFacts(Snap(g));
    KeysAgree(g.View());
    g.ReallyMark(v, {});
    BarrierMarks(old(Snap(g)), Snap(g), {v});
  }

  lemma KeysAgree(s: St)
    requires MarkInv(s, {})
    ensures s.color.Keys == s.heap.Keys
  {}

  // The barriers do something for a black object and a white one only.
  ghost predicate NeedsBarrier(c: Colors, p: Ref, v: Value) {
    p in c && c[p].Black? && v.Obj? && IsWhite(c, v.ref)
  }

  ghost function Whitened(m: Mach, p: Ref): Mach {
    m.(st := Whiten(m.st, p))
  }

  // luaC_barrier: moves the collector forward, that is, marks the white object being
  // pointed by a black one; in a sweep phase it whitens the black object instead.
  method Barrier(g: GlobalState, p: Ref, v: Value)
    requires p in g.heap && !g.heap[p].Str? && p !in Gone(g.View()) && Usable(g.View(), v) && Inv(Snap(g))
    modifies g`color, g`gray, g`loc, g`stuck
    ensures Stainless(Snap(g), p, v) && Barred(old(Snap(g)), Snap(g), ValueRefs(v))
    ensures !NeedsBarrier(old(g.color), p, v) ==> Snap(g) == old(Snap(g))
    ensures NeedsBarrier(old(g.color), p, v) ==>
              if KeepInvariant(g.gcstate) then !IsWhite(g.color, v.ref) else Snap(g) == old(Whitened(Snap(g), p))
    ensures Inv(Snap(g))
  {
    hide Inv, Barred;
    BarredReflexive(Snap(g));
    AsIs(Snap(g), p);
    if v.Obj? && g.color[p].Black? && IsWhite(g.color, v.ref) {
      if KeepInvariant(g.gcstate) {
        MarkForward(g, v.ref);
      } else {
        WhitenInv(Snap(g), p);
        MakeWhite(g, p, true);
      }
    }
  }

  lemma BarredReflexive(m: Mach)
    ensures forall more: set<Ref> :: Barred(m, m, more)
  {}

  lemma NotFixed(m: Mach, p: Ref)
    requires FixedOk(m.st.heap, m.st.color, m.st.fixed) && p in m.st.heap && !m.st.heap[p].Str?
    ensures p !in m.st.fixed
  {}

  lemma WhitenSwept(m: Mach, p: Ref)
    requires Swept(m)
    ensures Swept(m.(st := Whiten(m.st, p)))
  {}

  lemma WhitenInv(m: Mach, p: Ref)
    requires Inv(m) && !KeepInvariant(m.phase) && p in m.st.heap && !m.st.heap[p].Str? && p !in Gone(m.st)
    ensures Inv(m.(st := Whiten(m.st, p))) && forall more: set<Ref> :: Barred(m, m.(st := Whiten(m.st, p)), more)
  {
    hide Inv, Swept, Sound, MarksFor;
    InvRest(m);
    NotFixed(m, p);
    WhitenRest(m.st, p);
    WhitenSound(m.st, p);
    WhitenSwept(m, p);
    hide RestOk;
    InvRest(m.(st := Whiten(m.st, p)));
  }

  // Makes a black table gray again and links it in 'grayagain'.
  method LinkBack(g: GlobalState, t: Ref)
    requires t in g.heap && g.heap[t].Table? && t in g.color && g.color[t].Black? && Inv(Snap(g))
    modifies g`color, g`grayagain, g`again, g`loc, g`stuck
    ensures Snap(g) == Back(old(Snap(g)), t) && t in g.color && g.color[t].Gray? && Barred(old(Snap(g)), Snap(g), {}) && Whites(g.color) == old(Whites(g.color))
    ensures Inv(Snap(g))
  {
    hide Inv, Barred, Link;
    BackInv(Snap(g), t);
    GrayAgain(g, t, if KeepInvariant(g.gcstate) then g.stuck - {t} else g.stuck);
  }

  method GrayAgain(g: GlobalState, t: Ref, ghost stuck: set<Ref>)
    modifies g`color, g`grayagain, g`again, g`loc, g`stuck
    ensures g.color == old(g.color)[t := Gray] && g.grayagain == [t] + old(g.grayagain)
    ensures g.View() == Link(old(g.View()).(color := old(g.color)[t := Gray], stuck := stuck), t, AgainL)
  {
    g.color := g.color[t := Gray];
    g.grayagain := [t] + g.grayagain;
    g.again := [t] + g.again;
    g.loc := g.loc[t := AgainL];
    g.stuck := stuck;
  }

  // luaC_barrierback: a black table that gets a white object is gray from now on, and will
  // be traversed once more in the atomic step.
  method BarrierBack(g: GlobalState, t: Ref, v: Value)
    requires t in g.heap && g.heap[t].Table? && t !in Gone(g.View()) && Usable(g.View(), v) && Inv(Snap(g))
    modifies g`color, g`grayagain, g`again, g`loc, g`stuck
    ensures Stainless(Snap(g), t, v) && Barred(old(Snap(g)), Snap(g), {}) && Whites(g.color) == old(Whites(g.color))
    ensures Snap(g) == if NeedsBarrier(old(g.color), t, v) then Back(old(Snap(g)), t) else old(Snap(g))
    ensures Inv(Snap(g))
  {
    hide Inv, Barred;
    BarredReflexive(Snap(g));
    AsIs(Snap(g), t);
    if v.Obj? && g.color[t].Black? && IsWhite(g.color, v.ref) {
      LinkBack(g, t);
    }
  }

  ghost function Back(m: Mach, t: Ref): Mach {
    var stuck := if KeepInvariant(m.phase) then m.st.stuck - {t} else m.st.stuck;
    m.(st := Link(m.st.(color := m.st.color[t := Gray], stuck := stuck), t, AgainL), grayagain := [t] + m.grayagain)
  }

  // A table that will be traversed again is not stuck any more.
  lemma Unstick(s: St, t: Ref)
    requires MarkInv(s, {t}) && s.bound == s.heap.Keys
    ensures MarkInv(s.(stuck := s.stuck - {t}), {t})
  {
    AllClosed(s.heap, s.upv, s.stuck - {t});
    UnstickRest(s, t);
    hide HeapWF, Exist, Lists, LocsOk, NoDead, FixedOk, TwupsOk, StuckOk, StuckPlaces, BlackInv, GrayInv, BoundClosed, MarkedWithin;
  }

  lemma UnstickRest(s: St, t: Ref)
    requires MarkInv(s, {t})
    ensures StuckOk(s.heap, s.color, s.stuck - {t}) && StuckPlaces(s.loc, s.stuck - {t})
    ensures BlackInv(s.heap, s.upv, s.color, Rule(s), s.loc, {t}, s.stuck - {t})
    ensures GrayInv(s.heap, s.color, s.inside, s.fixed, s.loc, {t}, s.stuck - {t})
  {
    hide HeapWF, Exist, Lists, LocsOk, NoDead, FixedOk, TwupsOk, BoundClosed, MarkedWithin, BlackOk, GrayOk;
  }

  lemma BlackUnlinked(s: St, t: Ref)
    requires MarkInv(s, {}) && t in s.heap && s.color[t].Black?
    ensures t in s.color && t in s.loc && s.loc[t] == NoList
  {}

  lemma BackMark(s: St, t: Ref)
    requires MarkInv(s, {}) && s.bound == s.heap.Keys && t in s.heap && s.heap[t].Table? && s.color[t].Black?
    ensures MarkInv(Link(s.(color := s.color[t := Gray], stuck := s.stuck - {t}), t, AgainL), {})
  {
    hide MarkInv, Link;
    var s1 := s.(stuck := s.stuck - {t});
    var s2 := s1.(color := s1.color[t := Gray]);
    BlackUnlinked(s, t);
    SkipMore(s, {}, t);
    assert {} + {t} == {t};
    Unstick(s, t);
    Black2GrayInv(s1, t, {});
    LinkPendingInv(s2, t, AgainL, {});
  }

  lemma BackRest(m: Mach, t: Ref)
    requires RestOk(m.st) && Sound(m.st) && Swept(m) && !KeepInvariant(m.phase) && t in m.st.heap && t in m.st.color && m.st.color[t].Black?
    ensures RestOk(Back(m, t).st) && Sound(Back(m, t).st) && Swept(Back(m, t))
  {
    hide HeapWF, Clear, Swept, FixedOk, TwupsLive;
    assert Gone(Back(m, t).st) == Gone(m.st);
    BackSwept(m, t);
    BackKinds(m, t);
  }

  lemma BackSwept(m: Mach, t: Ref)
    requires Swept(m) && !KeepInvariant(m.phase) && t in m.st.color && m.st.color[t].Black?
    ensures Swept(Back(m, t))
  {}

  lemma BackKinds(m: Mach, t: Ref)
    requires t in m.st.color && m.st.color[t].Black? && Gone(Back(m, t).st) == Gone(m.st)
    requires FixedOk(m.st.heap, m.st.color, m.st.fixed) && TwupsLive(m.st)
    ensures FixedOk(m.st.heap, Back(m, t).st.color, m.st.fixed) && TwupsLive(Back(m, t).st)
  {}

  lemma BackRoots(m: Mach, t: Ref)
    requires RootsLive(m) && Partition(m) && t in m.st.color && m.st.color[t].Black?
    ensures RootsLive(Back(m, t)) && Partition(Back(m, t)) && Barred(m, Back(m, t), {})
  {
    assert Gone(Back(m, t).st) == Gone(m.st);
  }

  lemma BackMain(m: Mach, t: Ref)
    requires t in m.st.color && m.st.color[t].Black? && !IsWhite(m.st.color, m.mainthread)
    ensures !IsWhite(Back(m, t).st.color, m.mainthread)
  {}

  lemma BackInv(m: Mach, t: Ref)
    requires Inv(m) && t in m.st.heap && m.st.heap[t].Table? && t in m.st.color && m.st.color[t].Black?
    ensures Inv(Back(m, t)) && Barred(m, Back(m, t), {})
  {
    hide Inv, RootsLive, Partition, Swept, RestOk, Sound, MarkInv, Barred;
    InvRoots(m);
    BackRoots(m, t);
    if KeepInvariant(m.phase) {
      InvMark(m);
      BackMark(m.st, t);
      BackMain(m, t);
      InvMark(Back(m, t));
    } else {
      InvRest(m);
      BackRest(m, t);
      InvRest(Back(m, t));
    }
  }

  lemma InvRoots(m: Mach)
    requires Inv(m)
    ensures RootsLive(m) && Partition(m)
  {}
}
