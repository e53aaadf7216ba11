// The steps of a collection cycle: singlestep in every state, and the early sweep of
// a full collection. Each keeps the invariant.

module GcCycle {
  import opened Common
  import opened GcHeap
  import opened GcInvariants
  import opened GcState
  import opened GcSteps
  import opened GcAtomicSteps
  import opened GcMark
  import opened GcConverge
  import opened GcClear
  import opened GcAtomic
  import opened GcMachine
  import opened GcSweep

  // ------------------------------------------------------------- starting a cycle

  function NoLists(h: Heap): Locs {
    map r | r in h :: NoList
  }

  function Reset(s: St): St {
    s.(loc := NoLists(s.heap), gray := [], again := [], weak := [], ephemeron := [], allweak := [], work := [])
  }

  // Between cycles every object is white, but for the fixed strings and stuck objects.
  lemma RestWhite(m: Mach, r: Ref)
    requires Partition(m) && Swept(m) && m.phase == Pause && r in m.st.heap
    ensures r in m.st.fixed || r in m.st.stuck || (r in m.st.color && m.st.color[r] == White(m.st.white))
  {
    var all := multiset(m.allgc) + multiset(m.finobj) + multiset(m.tobefnz) + multiset(m.st.fixed) + multiset{m.mainthread};
    assert all[r] == multiset(m.st.heap.Keys)[r] == 1;
    assert r in m.allgc || r in m.finobj || r in m.tobefnz || r in m.st.fixed || r == m.mainthread;
  }

  ghost predicate RestColors(s: St) {
    s.color.Keys == s.heap.Keys && forall r :: r in s.heap ==> r in s.fixed || r in s.stuck || s.color[r] == White(s.white)
  }

  lemma ResetColors(s: St)
    requires RestColors(s) && FixedOk(s.heap, s.color, s.fixed) && StuckOk(s.heap, s.color, s.stuck)
    ensures NoDead(s.color, s.white) && MarkedWithin(s.color, s.heap.Keys) && Gone(s) == Missing(s.heap)
    ensures LocsOk(s.heap, s.color, NoLists(s.heap))
  {
    assert Gone(s) == Missing(s.heap);
  }

  lemma ResetBlackGray(s: St)
    requires RestColors(s) && FixedOk(s.heap, s.color, s.fixed) && !s.inside && !s.remarked
    ensures BlackInv(s.heap, s.upv, s.color, Flagged, NoLists(s.heap), {}, s.stuck)
    ensures GrayInv(s.heap, s.color, false, s.fixed, NoLists(s.heap), {}, s.stuck)
  {}

  lemma ResetTwups(s: St)
    requires RestColors(s) && FixedOk(s.heap, s.color, s.fixed) && StuckOk(s.heap, s.color, s.stuck) && TwupsLive(s)
    ensures TwupsOk(s.heap, s.color, NoLists(s.heap), s.twups, false, false, {})
  {
    assert forall th :: IsThread(s.heap, th) ==> th !in Gone(s);
  }

  lemma ResetInv(m: Mach)
    requires Partition(m) && Swept(m) && RestOk(m.st) && Sound(m.st) && m.phase == Pause
    ensures MarkInv(Reset(m.st), {})
  {
    hide Partition, Swept, RestColors, FixedOk, StuckOk, StuckPlaces, TwupsLive, HeapWF, Exist, NoDead, MarkedWithin, LocsOk, Lists, BlackInv, GrayInv, TwupsOk, Reset, BoundClosed, Sound;
    var s := m.st;
    RestIsWhite(m);
    ResetColors(s);
    ResetBlackGray(s);
    ResetTwups(s);
    ResetExist(s);
    AllClosed(s.heap, s.upv, s.stuck);
    ResetPlaces(s);
    ResetJoin(s);
  }

  lemma ResetPlaces(s: St)
    ensures StuckPlaces(NoLists(s.heap), s.stuck) && Lists(Reset(s))
  {}

  lemma ResetExist(s: St)
    requires Sound(s) && Gone(s) == Missing(s.heap)
    ensures Exist(s.heap, s.upv)
  {}

  lemma ResetJoin(s: St)
    requires HeapWF(s.heap, s.upv) && Exist(s.heap, s.upv) && Lists(Reset(s)) && LocsOk(s.heap, s.color, NoLists(s.heap))
    requires NoDead(s.color, s.white) && FixedOk(s.heap, s.color, s.fixed) && !s.inside && !s.remarked
    requires TwupsOk(s.heap, s.color, NoLists(s.heap), s.twups, false, false, {})
    requires StuckOk(s.heap, s.color, s.stuck) && StuckPlaces(NoLists(s.heap), s.stuck)
    requires BlackInv(s.heap, s.upv, s.color, Flagged, NoLists(s.heap), {}, s.stuck)
    requires GrayInv(s.heap, s.color, false, s.fixed, NoLists(s.heap), {}, s.stuck)
    requires s.bound == s.heap.Keys && BoundClosed(s.heap, s.upv, s.stuck, s.heap.Keys) && MarkedWithin(s.color, s.heap.Keys)
    ensures MarkInv(Reset(s), {})
  {
    hide HeapWF, Exist, Lists, LocsOk, NoDead, FixedOk, TwupsOk, StuckOk, StuckPlaces, BlackInv, GrayInv, BoundClosed, MarkedWithin;
  }

  // A marked thread is in a list that will be visited.
  lemma MarkedThread(s: St, th: Ref)
    requires MarkInv(s, {}) && !s.inside && IsThread(s.heap, th) && !IsWhite(s.color, th)
    ensures th in s.gray || th in s.again
  {
    assert s.color[th].Black? ==> BlackOk(s.heap, s.upv, Whites(s.color), Rule(s), s.loc, {}, s.heap[th]);
    assert s.color[th].Gray? && GrayOk(Whites(s.color), s.inside, s.fixed, s.loc[th], th, s.heap[th]);
    hide HeapWF, Exist, NoDead, FixedOk, TwupsOk, StuckOk, BlackInv, GrayInv, BoundClosed, MarkedWithin;
  }

  // All gray lists are reset.
  method ResetLists(g: GlobalState)
    requires g.gcstate == Pause && Inv(Snap(g))
    modifies g`gray, g`grayagain, g`weak, g`ephemeron, g`allweak, g`loc, g`again, g`work
    ensures g.again == g.grayagain == g.allweak == [] && g.View() == Reset(old(g.View()))
    ensures MarkInv(g.View(), {})
  {
    hide Inv, MarkInv;
    ResetFromInv(Snap(g));
    g.gray, g.grayagain, g.weak, g.allweak, g.ephemeron := [], [], [], [], [];
    g.again, g.work, g.loc := [], [], NoLists(g.heap);
  }

  // The registry is the only root beside the main thread, and not a string or a userdata
  // that would have to be marked.
  ghost predicate FewRoots(m: Mach) {
    NoMetatables(m.mt) && m.tobefnz == [] && OneMore(m.st, m.mainthread, m.registry)
  }

  ghost predicate OneMore(s: St, mainthread: Ref, registry: Value) {
    registry != Obj(mainthread) && (registry.Obj? && IsWhite(s.color, registry.ref) ==> TurnsGray(s, registry))
  }

  // The gray list then has the main thread and what the registry refers to.
  ghost function Started(m: Mach): St {
    StartedFrom(Reset(m.st), m.mainthread, m.registry)
  }

  ghost function StartedFrom(s: St, mainthread: Ref, registry: Value): St {
    var s' := Grayed(s, mainthread);
    if registry.Obj? && IsWhite(s.color, registry.ref) then Grayed(s', registry.ref) else s'
  }

  // What a cycle begins with.
  ghost function FirstRoots(m: Mach): set<Ref> {
    set r | r in m.st.heap && (r == m.mainthread || m.registry == Obj(r) || Some(r) in m.mt || r in m.tobefnz)
  }

  lemma FirstIn(m: Mach, b: set<Ref>)
    requires FirstRoots(m) <= b && RootsIn(m.st.heap.Keys, m.running, m.registry, m.mt) && AllIn(m.tobefnz, m.st.heap.Keys)
    ensures InB(b, m.registry) && (forall i :: 0 <= i < |m.mt| ==> OptInB(b, m.mt[i])) && AllIn(m.tobefnz, b)
    ensures m.mainthread in m.st.heap ==> m.mainthread in b
  {
    forall i | 0 <= i < |m.mt| ensures OptInB(b, m.mt[i]) { assert m.mt[i] in m.mt; }
  }

  // Nothing to begin with is in 'bad'.
  ghost predicate FirstClear(bad: iset<Ref>, mainthread: Ref, registry: Value, mt: seq<Option<Ref>>, tobefnz: seq<Ref>) {
    mainthread !in bad && !In(bad, registry) && NoOptIn(bad, mt) && NoneOf(bad, tobefnz)
  }

  // Marks the roots, to start a new collection.
  method RestartCollection(g: GlobalState)
    requires g.gcstate == Pause && Inv(Snap(g))
    modifies g`gray, g`grayagain, g`weak, g`ephemeron, g`allweak, g`color, g`loc, g`again, g`work, g`bound
    ensures g.again == g.grayagain && !IsWhite(g.color, g.mainthread) && g.mainthread in g.gray && g.allweak == []
    ensures g.bound == old(g.bound) && FirstClear(Whites(g.color), g.mainthread, g.registry, g.mt, g.tobefnz)
    ensures OnlyForced(Reset(old(g.View())), FirstRoots(old(Snap(g))), g.View())
    ensures FewRoots(old(Snap(g))) ==> g.View() == Started(old(Snap(g)))
    ensures MarkInv(g.View(), {})
  {
    hide Inv, MarkInv, Reset, FewRoots, Started, StartedFrom, FirstRoots, FirstClear, OnlyForced, Least, AllIn, OneMore, NoMetatables, Whites;
    ghost var m := Snap(g);
    ResetWithin(g);
    ghost var s1 := g.View();
    MarkFirst(g);
    ghost var s2 := g.View();
    g.bound := g.heap.Keys;
    Restarted(m, s1, s2, g.View());
  }

  // The lists are reset; marking the roots will not leave the least closed set with them.
  method ResetWithin(g: GlobalState)
    requires g.gcstate == Pause && Inv(Snap(g))
    modifies g`gray, g`grayagain, g`weak, g`ephemeron, g`allweak, g`loc, g`again, g`work, g`bound
    ensures g.again == g.grayagain == g.allweak == [] && old(g.bound) == g.heap.Keys && !g.inside
    ensures g.View() == Reset(old(g.View())).(bound := Least(Reset(old(g.View())), FirstRoots(old(Snap(g)))))
    ensures IsThread(g.heap, g.mainthread) && IsWhite(g.color, g.mainthread)
    ensures g.mainthread in g.bound && InB(g.bound, g.registry) && AllIn(g.tobefnz, g.bound)
    ensures forall i :: 0 <= i < |g.mt| ==> OptInB(g.bound, g.mt[i])
    ensures MarkInv(g.View(), {})
  {
    hide Inv, MarkInv, Reset, FirstRoots, Least, AllIn, Sound, RestOk;
    ghost var m := Snap(g);
    ResetLists(g);
    FirstBound(m);
    g.bound := Least(g.View(), FirstRoots(m));
  }

  lemma FirstBound(m: Mach)
    requires Inv(m) && m.phase == Pause && MarkInv(Reset(m.st), {})
    ensures var b := Least(Reset(m.st), FirstRoots(m));
      && MarkInv(Reset(m.st).(bound := b), {}) && m.mainthread in b && InB(b, m.registry)
      && (forall i :: 0 <= i < |m.mt| ==> OptInB(b, m.mt[i])) && AllIn(m.tobefnz, b)
    ensures IsThread(m.st.heap, m.mainthread) && IsWhite(m.st.color, m.mainthread) && !m.st.inside && m.st.bound == m.st.heap.Keys
    ensures IsWhite(Reset(m.st).color, m.mainthread) && Reset(m.st).heap == m.st.heap && Reset(m.st).inside == m.st.inside
  {
    RestFacts(m);
    MainWhite(m);
    hide Inv, MarkInv, Partition, Swept, RestOk, Sound, RootsIn, AllIn, Least;
    ReboundLeast(Reset(m.st), FirstRoots(m));
    hide Reset, FirstRoots;
    FirstIn(m, Least(Reset(m.st), FirstRoots(m)));
  }

  lemma Restarted(m: Mach, s1: St, s2: St, s: St)
    requires s1 == Reset(m.st).(bound := Least(Reset(m.st), FirstRoots(m))) && s2.bound == s1.bound && MarkInv(s2, {})
    requires s == s2.(bound := s2.heap.Keys) && m.st.bound == m.st.heap.Keys && s2.heap == m.st.heap
    requires NoMetatables(m.mt) && m.tobefnz == [] && OneMore(s1, m.mainthread, m.registry) ==> s2 == StartedFrom(s1, m.mainthread, m.registry)
    ensures MarkInv(s, {}) && OnlyForced(Reset(m.st), FirstRoots(m), s) && (FewRoots(m) ==> s == Started(m))
  {
    RestartedAs(m, s1, s2);
    hide MarkInv, Least, FirstRoots, Reset, Started, FewRoots, StartedFrom, OneMore;
    BoundMarked(s2);
    LeastOnlyForced(Reset(m.st), FirstRoots(m), s);
    ReboundAll(s2);
  }

  // The roots.
  method MarkFirst(g: GlobalState)
    requires g.mainthread in g.bound && InB(g.bound, g.registry) && AllIn(g.tobefnz, g.bound)
    requires IsThread(g.heap, g.mainthread) && !g.inside && g.again == [] && IsWhite(g.color, g.mainthread)
    requires (forall i :: 0 <= i < |g.mt| ==> OptInB(g.bound, g.mt[i])) && MarkInv(g.View(), {})
    modifies g`color, g`gray, g`loc
    ensures !IsWhite(g.color, g.mainthread) && g.mainthread in g.gray
    ensures FirstClear(Whites(g.color), g.mainthread, g.registry, g.mt, g.tobefnz)
    ensures NoMetatables(g.mt) && g.tobefnz == [] && OneMore(old(g.View()), g.mainthread, g.registry) ==>
              g.View() == StartedFrom(old(g.View()), g.mainthread, g.registry)
    ensures MarkInv(g.View(), {})
  {
    hide MarkInv, Marking, Grayed;
    ghost var s0 := g.View();
    MarkRoot(g, Obj(g.mainthread));
    ghost var s1 := g.View();
    MarkRoot(g, g.registry);
    ghost var s2 := g.View();
    MarkMt(g);
    ghost var s3 := g.View();
    MarkBeingFnz(g);
    StillGray(s1, s2, s3, g.View(), g.mainthread);
    StillMarkedFirst(s1, s2, s3, g.View(), g.mainthread, g.registry, g.mt);
    StartedAs(s0, s1, s2, g.mainthread, g.registry);
  }

  lemma StillMarkedFirst(s1: St, s2: St, s3: St, s: St, mainthread: Ref, registry: Value, mt: seq<Option<Ref>>)
    requires Marking(s1, s2) && Marking(s2, s3) && Marking(s3, s)
    requires mainthread !in Whites(s1.color) && !In(Whites(s2.color), registry) && NoOptIn(Whites(s3.color), mt)
    ensures mainthread !in Whites(s.color) && !In(Whites(s.color), registry) && NoOptIn(Whites(s.color), mt)
  {
    MarkingKeeps(s1, s2, mainthread);
    MarkingKeeps(s2, s3, mainthread);
    MarkingKeeps(s3, s, mainthread);
    hide Marking;
  }

  lemma StillGray(s1: St, s2: St, s3: St, s: St, th: Ref)
    requires Marking(s1, s2) && Marking(s2, s3) && Marking(s3, s) && !IsWhite(s1.color, th)
    requires MarkInv(s, {}) && !s.inside && IsThread(s.heap, th) && s.again == []
    ensures !IsWhite(s.color, th) && th in s.gray
  {
    hide MarkInv, Marking;
    BoundMarked(s);
    MarkingKeeps(s1, s2, th);
    MarkingKeeps(s2, s3, th);
    MarkingKeeps(s3, s, th);
    MarkedThread(s, th);
  }

  lemma MainWhite(m: Mach)
    requires Swept(m) && m.phase == Pause
    ensures IsWhite(m.st.color, m.mainthread) && IsWhite(Reset(m.st).color, m.mainthread) && Reset(m.st).heap == m.st.heap
  {}

  lemma StartedAs(s0: St, s1: St, s2: St, mainthread: Ref, registry: Value)
    requires s1 == Grayed(s0, mainthread)
    requires TurnsGray(s1, registry) ==> s2 == Grayed(s1, registry.ref)
    requires !(registry.Obj? && IsWhite(s1.color, registry.ref)) ==> s2 == s1
    ensures OneMore(s0, mainthread, registry) ==> s2 == StartedFrom(s0, mainthread, registry)
  {}

  // The bound makes no difference for that.
  lemma RestartedAs(m: Mach, s1: St, s2: St)
    requires s1 == Reset(m.st).(bound := s1.bound) && m.st.bound == m.st.heap.Keys && s2.heap == m.st.heap
    requires NoMetatables(m.mt) && m.tobefnz == [] && OneMore(s1, m.mainthread, m.registry) ==> s2 == StartedFrom(s1, m.mainthread, m.registry)
    ensures FewRoots(m) ==> s2.(bound := s2.heap.Keys) == Started(m)
  {
    StartedBound(Reset(m.st), s1.bound, m.mainthread, m.registry);
    OneMoreSame(m.st, s1, m.mainthread, m.registry);
    hide Least, StartedFrom, OneMore, NoMetatables;
  }

  lemma StartedBound(s: St, b: set<Ref>, mainthread: Ref, registry: Value)
    ensures StartedFrom(s.(bound := b), mainthread, registry).(bound := s.bound) == StartedFrom(s, mainthread, registry)
  {}

  lemma OneMoreSame(s: St, s': St, mainthread: Ref, registry: Value)
    requires s'.heap == s.heap && s'.color == s.color
    ensures OneMore(s', mainthread, registry) <==> OneMore(s, mainthread, registry)
  {}

  lemma ResetFromInv(m: Mach)
    requires Inv(m) && m.phase == Pause
    ensures MarkInv(Reset(m.st), {})
  {
    hide Inv, MarkInv, Swept, RestOk, Sound, Partition, Reset;
    RestFacts(m);
    ResetInv(m);
  }

  // What the roots and the snapshot are like between cycles.
  lemma RestFacts(m: Mach)
    requires Inv(m) && m.phase == Pause
    ensures Partition(m) && Swept(m) && RestOk(m.st) && Sound(m.st) && m.st.bound == m.st.heap.Keys && !m.st.inside && !m.st.remarked
    ensures IsThread(m.st.heap, m.mainthread) && m.mainthread in m.st.color && m.sweepgc.None?
    ensures RootsIn(m.st.bound, m.running, m.registry, m.mt) && AllIn(m.tobefnz, m.st.bound)
  {
    hide Partition, MarkInv, Sound, HeapWF, SweptTo;
    assert Missing(m.st.heap) <= Gone(m.st);
  }

  // ------------------------------------------------------------------ marking steps

  lemma TrimThreads(h: Heap, h': Heap, r: Ref)
    requires Trim(h, h') && IsThread(h, r)
    ensures IsThread(h', r)
  {
    assert ObjTrim(h[r], h'[r]);
  }

  lemma TrimFinalizable(h: Heap, h': Heap, rs: seq<Ref>)
    requires Trim(h, h') && Finalizable(h, rs)
    ensures Finalizable(h', rs)
  {
    forall r | r in rs ensures r in h' && (h'[r].Table? || h'[r].Udata?) { assert ObjTrim(h[r], h'[r]); }
  }

  // Marking keeps the roots alive.
  lemma MarkRoots(m: Mach, m': Mach)
    requires RootsLive(m) && Gone(m.st) == Missing(m.st.heap) && MarkInv(m'.st, {})
    requires Trim(m.st.heap, m'.st.heap)
    requires m' == m.(st := m'.st, phase := m'.phase, grayagain := m'.grayagain)
    ensures RootsLive(m')
  {
    MarkSound(m'.st);
    hide MarkInv;
    TrimThreads(m.st.heap, m'.st.heap, m.mainthread);
    TrimThreads(m.st.heap, m'.st.heap, m.running);
    TrimFinalizable(m.st.heap, m'.st.heap, m.tobefnz);
    TrimFinalizable(m.st.heap, m'.st.heap, m.finobj);
    assert Missing(m'.st.heap) == Missing(m.st.heap);
  }

  lemma ProgressInv(m: Mach, m': Mach)
    requires Inv(m) && KeepInvariant(m.phase) && MarkInv(m'.st, {}) && Progress(m.st, m'.st)
    requires m' == m.(st := m'.st, phase := m'.phase, grayagain := m'.grayagain)
    requires KeepInvariant(m'.phase) && m'.grayagain == m'.st.again && (m'.phase == Propagate ==> m'.st.gray != [])
    ensures Inv(m')
  {
    hide MarkInv, RootsLive, Sound;
    MarkSound(m.st);
    StaysMarked(m.st.color, m'.st.color, m.mainthread);
    MarkRoots(m, m');
    assert m'.st.heap.Keys == m.st.heap.Keys;
  }

  lemma MarkFacts(m: Mach)
    requires Inv(m) && KeepInvariant(m.phase)
    ensures MarkInv(m.st, {}) && !m.st.inside && !m.st.remarked && !m.st.clearing && m.grayagain == m.st.again
    ensures m.st.bound == m.st.heap.Keys && m.sweepgc.None?
    ensures m.phase == Propagate ==> m.st.gray != []
  {}

  // A gray object has been traversed. More objects have been marked by this, or the list
  // of gray objects is shorter now.
  ghost predicate Propagated(m: Mach, m': Mach) {
    && m' == m.(st := m'.st, grayagain := m'.grayagain, phase := if m'.st.gray == [] then Atomic else Propagate)
    && Progress(m.st, m'.st) && OnlyForced(m.st, {}, m'.st)
    && (Whites(m'.st.color) == Whites(m.st.color) ==> m.st.gray != [] && m'.st.gray == m.st.gray[1..])
  }

  // GCSpropagate: one gray object. Only what has to be is marked.
  method PropagateStep(g: GlobalState)
    requires g.gcstate == Propagate && Inv(Snap(g))
    modifies g`heap, g`upv, g`color, g`gray, g`loc, g`grayagain, g`again, g`weak, g`ephemeron, g`allweak, g`twups, g`bound, g`gcstate
    ensures Propagated(old(Snap(g)), Snap(g))
    ensures old(g.gray) != [] && var o := old(g.gray)[0];
      o in old(g.heap) && old(g.heap)[o].Table? && old(g.heap)[o].mode.AllWeak? ==> g.allweak == [o] + old(g.allweak)
    ensures Inv(Snap(g))
  {
    hide Inv, MarkInv, Progress, OnlyForced;
    ghost var m := Snap(g);
    MarkFacts(m);
    PropagateOne(g);
    ghost var m1 := Snap(g);
    if g.gray == [] {
      g.gcstate := Atomic;
    }
    PropagatedInv(m, m1, g.gcstate);
  }

  lemma PropagatedInv(m: Mach, m': Mach, phase: GcPhase)
    requires Inv(m) && KeepInvariant(m.phase) && MarkInv(m'.st, {}) && Progress(m.st, m'.st)
    requires m' == m.(st := m'.st, grayagain := m'.grayagain) && m'.grayagain == m'.st.again
    requires KeepInvariant(phase) && (phase == Propagate ==> m'.st.gray != [])
    ensures Inv(m'.(phase := phase))
  {
    hide Inv, MarkInv, Progress;
    ProgressInv(m, m'.(phase := phase));
  }

  // A cycle begins: the roots, and nothing that they do not lead to, are marked.
  ghost predicate Begun(m: Mach, m': Mach) {
    && m' == m.(st := m'.st, grayagain := m'.grayagain, phase := Propagate) && m'.st.heap == m.st.heap
    && FirstClear(Whites(m'.st.color), m.mainthread, m.registry, m.mt, m.tobefnz)
    && OnlyForced(Reset(m.st), FirstRoots(m), m'.st)
  }

  // GCSpause: a new cycle begins.
  method PauseStep(g: GlobalState)
    requires g.gcstate == Pause && Inv(Snap(g))
    modifies g`gray, g`grayagain, g`weak, g`ephemeron, g`allweak, g`color, g`loc, g`again, g`work, g`gcstate, g`bound
    ensures g.gcstate == Propagate && g.allweak == [] && Gone(g.View()) == Gone(old(g.View())) && Inv(Snap(g))
    ensures Begun(old(Snap(g)), Snap(g))
    ensures FewRoots(old(Snap(g))) ==> g.View() == Started(old(Snap(g)))
  {
    hide Inv, MarkInv, Gone, FewRoots, Started, FirstClear, OnlyForced, FirstRoots, Reset;
    ghost var m := Snap(g);
    RestartCollection(g);
    g.gcstate := Propagate;
    RestartInv(m, Snap(g));
  }

  // Between cycles nothing is dead.
  lemma RestGone(m: Mach)
    requires Inv(m) && m.phase == Pause
    ensures Gone(m.st) == Missing(m.st.heap)
  {
    hide Inv, Partition, Swept, HeapWF, FixedOk, StuckOk, TwupsLive, Sound;
    RestFacts(m);
    RestIsWhite(m);
    RestWhites(m.st);
  }

  lemma RestIsWhite(m: Mach)
    requires Partition(m) && Swept(m) && m.phase == Pause && m.st.color.Keys == m.st.heap.Keys
    ensures RestColors(m.st)
  {
    hide Partition, Swept;
    forall r | r in m.st.heap ensures r in m.st.fixed || r in m.st.stuck || m.st.color[r] == White(m.st.white) { RestWhite(m, r); }
  }

  lemma RestWhites(s: St)
    requires RestColors(s) && FixedOk(s.heap, s.color, s.fixed) && StuckOk(s.heap, s.color, s.stuck)
    ensures Gone(s) == Missing(s.heap)
  {}

  lemma RestartInv(m: Mach, m': Mach)
    requires Inv(m) && m.phase == Pause && MarkInv(m'.st, {})
    requires m'.phase == Propagate && m'.mainthread in m'.st.gray && !IsWhite(m'.st.color, m'.mainthread)
    requires m'.grayagain == m'.st.again && m'.st == m.st.(color := m'.st.color, loc := m'.st.loc, gray := m'.st.gray,
               again := m'.st.again, weak := m'.st.weak, ephemeron := m'.st.ephemeron, allweak := m'.st.allweak, work := m'.st.work)
    requires m' == m.(st := m'.st, phase := m'.phase, grayagain := m'.grayagain)
    ensures Inv(m') && Gone(m'.st) == Gone(m.st)
  {
    hide MarkInv, HeapWF, Sound, Swept;
    RestFacts(m);
    RestGone(m);
    MarkSound(m'.st);
    assert Missing(m.st.heap) <= Gone(m.st);
  }

  // ---------------------------------------------------------------- the atomic step

  // Entering the step that ends in the atomic phase: from here on a gray object may
  // be accounted for without being in a list that will be visited again.
  lemma InsideInv(s: St)
    requires MarkInv(s, {}) && !s.inside && !s.remarked
    ensures MarkInv(s.(inside := true), {}) && AllInTwups(s.heap, s.twups) && s.work == []
  {
    var s' := s.(inside := true);
    hide HeapWF, Exist, NoDead, FixedOk, StuckOk, StuckPlaces, BoundClosed, MarkedWithin, LocsOk;
    assert TwupsOk(s.heap, s.color, s.loc, s.twups, true, false, {});
    InsideBlack(s);
    InsideGray(s);
    hide TwupsOk, BlackInv, GrayInv;
  }

  lemma InsideBlack(s: St)
    requires BlackInv(s.heap, s.upv, s.color, Flagged, s.loc, {}, s.stuck)
    ensures BlackInv(s.heap, s.upv, s.color, Remarking, s.loc, {}, s.stuck)
  {
    forall r | r in s.heap && r in s.color && r !in s.stuck && s.color[r].Black?
      ensures BlackOk(s.heap, s.upv, Whites(s.color), Remarking, s.loc, {}, s.heap[r])
    {
      assert BlackOk(s.heap, s.upv, Whites(s.color), Flagged, s.loc, {}, s.heap[r]);
      if s.heap[r].LClosure? {
        forall i | 0 <= i < |s.heap[r].upvals| && s.heap[r].upvals[i].Some?
          ensures UvBlack(s.heap, s.upv, Whites(s.color), Remarking, s.loc, {}, s.heap[r].upvals[i].value)
        {
          assert UvBlack(s.heap, s.upv, Whites(s.color), Flagged, s.loc, {}, s.heap[r].upvals[i].value);
        }
      }
    }
  }

  lemma InsideGray(s: St)
    requires GrayInv(s.heap, s.color, false, s.fixed, s.loc, {}, s.stuck)
    ensures GrayInv(s.heap, s.color, true, s.fixed, s.loc, {}, s.stuck)
  {
    forall r | r in s.heap && r in s.color && r in s.loc && r !in s.stuck && s.color[r].Gray?
      ensures GrayOk(Whites(s.color), true, s.fixed, s.loc[r], r, s.heap[r])
    {
      assert GrayOk(Whites(s.color), false, s.fixed, s.loc[r], r, s.heap[r]);
    }
  }

  // The flip of whites: all that is still white is dead.
  function Flip(s: St): St {
    s.(white := !s.white, inside := false, remarked := false, clearing := false)
  }

  lemma FlipGone(s: St)
    requires NoDead(s.color, s.white) && s.color.Keys == s.heap.Keys
    ensures Gone(Flip(s)) == Missing(s.heap) + Whites(s.color)
  {}

  lemma FlipClear(s: St, r: Ref)
    requires Gone(Flip(s)) == Missing(s.heap) + Whites(s.color) && r in s.heap
    requires Clear(s.heap, s.upv, Missing(s.heap), s.heap[r])
    ensures Clear(s.heap, s.upv, Gone(Flip(s)), s.heap[r]) <==> Clear(s.heap, s.upv, Whites(s.color), s.heap[r])
  {
    if Clear(s.heap, s.upv, Whites(s.color), s.heap[r]) {
      ClearUnion(s.heap, s.upv, Missing(s.heap), Whites(s.color), s.heap[r]);
    }
    if Clear(s.heap, s.upv, Gone(Flip(s)), s.heap[r]) {
      ClearAntitone(s.heap, s.upv, Gone(Flip(s)), Whites(s.color), s.heap[r]);
    }
  }

  lemma FlipSound(s: St)
    requires MarkInv(s, {})
    ensures Sound(Flip(s)) <==> AllClear(s)
  {
    FlipGone(s);
    assert Exist(s.heap, s.upv) && s.color.Keys == s.heap.Keys;
    hide MarkInv, Clear;
    forall r | r in s.heap
      ensures Clear(s.heap, s.upv, Gone(Flip(s)), s.heap[r]) <==> Clear(s.heap, s.upv, Whites(s.color), s.heap[r])
    {
      FlipClear(s, r);
    }
  }

  lemma FlipTwups(s: St)
    requires MarkInv(s, {}) && NothingPending(s)
    ensures TwupsLive(Flip(s))
  {
    hide HeapWF, Exist, FixedOk, StuckOk, StuckPlaces, BlackInv, GrayInv, BoundClosed, MarkedWithin, ListIs, AllWeakIs, NoDead;
    FlipGone(s);
    NonePending(s);
  }

  lemma NonePending(s: St)
    requires Lists(s) && NothingPending(s)
    ensures forall x :: !Pending(s.loc, x)
  {}

  lemma FlipRest(s: St)
    requires MarkInv(s, {}) && NothingPending(s) && s.bound == s.heap.Keys
    ensures RestOk(Flip(s))
  {
    hide Exist, StuckOk, BlackInv, GrayInv, BoundClosed, MarkedWithin, HeapWF, TwupsLive, NothingPending, TwupsOk, NoDead;
    FlipTwups(s);
  }

  lemma FinalizableKept(h: Heap, h': Heap, finobj: seq<Ref>, tobefnz: seq<Ref>, finobj': seq<Ref>, tobefnz': seq<Ref>)
    requires Trim(h, h') && Finalizable(h, finobj) && Finalizable(h, tobefnz) && SameObjs(finobj, tobefnz, finobj', tobefnz')
    ensures Finalizable(h', finobj') && Finalizable(h', tobefnz')
  {
    var fin := multiset(finobj) + multiset(tobefnz);
    forall r | r in finobj' || r in tobefnz' ensures r in h' && (h'[r].Table? || h'[r].Udata?) {
      assert r in multiset(finobj') + multiset(tobefnz');
      assert r in fin;
      assert ObjTrim(h[r], h'[r]);
    }
  }

  lemma NoneGone(s: St, rs: seq<Ref>)
    requires MarkInv(s, {}) && NoneOf(Whites(s.color), rs) && Finalizable(s.heap, rs)
    ensures NoneOf(Gone(Flip(s)), rs)
  {
    FlipGoneInv(s);
    hide MarkInv;
    assert forall i :: 0 <= i < |rs| ==> rs[i] in rs;
  }

  lemma FlipRoots(m: Mach, m': Mach)
    requires RootsLive(m) && Gone(m.st) == Missing(m.st.heap) && MarkInv(m'.st, {}) && Trim(m.st.heap, m'.st.heap)
    requires m' == m.(st := m'.st, phase := m'.phase, grayagain := m'.grayagain, finobj := m'.finobj, tobefnz := m'.tobefnz)
    requires m'.mainthread !in Whites(m'.st.color) && RootsClear(Whites(m'.st.color), m.running, m.registry, m.mt)
    requires NoneOf(Whites(m'.st.color), m'.tobefnz) && NoneOf(Whites(m'.st.color), m'.finobj)
    requires SameObjs(m.finobj, m.tobefnz, m'.finobj, m'.tobefnz)
    ensures RootsLive(m'.(st := Flip(m'.st)))
  {
    hide MarkInv, Trim, SameObjs, NoneOf, Finalizable;
    FlipGoneInv(m'.st);
    TrimThreads(m.st.heap, m'.st.heap, m.mainthread);
    TrimThreads(m.st.heap, m'.st.heap, m.running);
    TrimKeys(m.st.heap, m'.st.heap);
    FinalizableKept(m.st.heap, m'.st.heap, m.finobj, m.tobefnz, m'.finobj, m'.tobefnz);
    NoneGone(m'.st, m'.tobefnz);
    NoneGone(m'.st, m'.finobj);
  }

  lemma TrimKeys(h: Heap, h': Heap)
    requires Trim(h, h')
    ensures Missing(h') == Missing(h) && h'.Keys == h.Keys
  {}

  lemma FlipGoneInv(s: St)
    requires MarkInv(s, {})
    ensures Gone(Flip(s)) == Missing(s.heap) + Whites(s.color)
  {
    FlipGone(s);
  }

  lemma FlipPartition(m: Mach, m': Mach)
    requires Partition(m) && m'.st.heap.Keys == m.st.heap.Keys && m'.st.fixed == m.st.fixed
    requires m'.allgc == m.allgc && m'.mainthread == m.mainthread
    requires SameObjs(m.finobj, m.tobefnz, m'.finobj, m'.tobefnz)
    ensures Partition(m')
  {
    var all := multiset(m'.allgc) + multiset(m'.finobj) + multiset(m'.tobefnz) + multiset(m'.st.fixed) + multiset{m'.mainthread};
    var fin := multiset(m'.finobj) + multiset(m'.tobefnz);
    assert all == multiset(m.allgc) + fin + multiset(m.st.fixed) + multiset{m.mainthread} == multiset(m'.st.heap.Keys);
  }

  // From the end of marking and clearing to the start of sweeping.
  lemma FlipInv(m: Mach, m': Mach, W: iset<Ref>)
    requires RootsLive(m) && Gone(m.st) == Missing(m.st.heap) && Partition(m) && !IsWhite(m.st.color, m.mainthread)
    requires Settling(m.st, m'.st, W) && m'.st.bound == m'.st.heap.Keys
    requires m' == m.(st := m'.st, phase := m'.phase, grayagain := m'.grayagain, finobj := m'.finobj, tobefnz := m'.tobefnz)
    requires NothingPending(m'.st) && RootsClear(Whites(m'.st.color), m.running, m.registry, m.mt)
    requires NoneOf(Whites(m'.st.color), m'.tobefnz) && NoneOf(Whites(m'.st.color), m'.finobj)
    requires SameObjs(m.finobj, m.tobefnz, m'.finobj, m'.tobefnz)
    requires MarkInv(m'.st, {})
    ensures SweepInv(m'.(st := Flip(m'.st)), AllGc, 0)
  {
    hide MarkInv, RestOk, RootsLive, Partition, NothingPending, Trim, LosesOnly, SameUpvals, SameObjs, NoneOf;
    TrimKeys(m.st.heap, m'.st.heap);
    StaysMarked(m.st.color, m'.st.color, m.mainthread);
    FlipRoots(m, m');
    FlipRest(m'.st);
    FlipPartition(m, m'.(st := Flip(m'.st)));
  }

  // ------------------------------------------------- what a collection has to keep

  // A flagged open upvalue denotes this object.
  ghost predicate FlaggedValue(s: St, r: Ref) {
    exists id :: id in s.upv && s.upv[id].Open? && s.upv[id].touched && UvValue(s.heap, s.upv, id) == Obj(r)
  }

  // The table has the string r in its array part, or in an entry that is not empty.
  ghost predicate HoldsString(h: Heap, t: Ref, r: Ref) {
    && r in h && h[r].Str?
    && (Obj(r) in ArrayOf(h, t) ||
        exists i :: 0 <= i < |Nodes(h, t)| && !Nodes(h, t)[i].val.Nil? && (Nodes(h, t)[i].key == Obj(r) || Nodes(h, t)[i].val == Obj(r)))
  }

  // ... and is in 'allweak' though it is not all-weak any more, or is stuck.
  ghost predicate ListedString(s: St, r: Ref) {
    exists t :: t in s.allweak && !Regular(s, t) && HoldsString(s.heap, t, r)
  }

  ghost predicate Unheld(h: Heap, r: Ref) {
    forall t :: !HoldsString(h, t, r)
  }

  // What is marked come what may: the roots, what flagged open upvalues denote, and strings
  // of tables that will be cleared as if they were all-weak.
  ghost predicate IsBase(m: Mach, r: Ref) {
    && r in m.st.heap
    && (r == m.running || m.registry == Obj(r) || Some(r) in m.mt || FlaggedValue(m.st, r) || ListedString(m.st, r))
  }

  ghost function Base(m: Mach): set<Ref> {
    set r | r in m.st.heap && IsBase(m, r)
  }

  // ... and in the end the objects with finalizers.
  ghost function WideBase(m: Mach): set<Ref> {
    Base(m) + (set r | r in m.finobj) + (set r | r in m.tobefnz)
  }

  lemma BaseRoots(m: Mach, b: set<Ref>)
    requires Base(m) <= b && RootsClear(Missing(m.st.heap), m.running, m.registry, m.mt)
    ensures RootsIn(b, m.running, m.registry, m.mt)
  {
    hide FlaggedValue, ListedString;
    assert IsBase(m, m.running);
    assert m.registry.Obj? ==> IsBase(m, m.registry.ref);
    forall i | 0 <= i < |m.mt| ensures OptInB(b, m.mt[i]) {
      assert m.mt[i] in m.mt;
      assert m.mt[i].Some? ==> !OptIn(Missing(m.st.heap), m.mt[i]) && IsBase(m, m.mt[i].value);
    }
  }

  lemma BaseStrings(m: Mach, b: set<Ref>)
    requires Base(m) <= b && AllWeakIs(m.st.loc, m.st.allweak)
    ensures LooseIn(m.st.(bound := b))
  {
    var s := m.st;
    forall t | t in s.loc && s.loc[t] == AllWeakL && !Regular(s, t) ensures KeyStrs(s.heap, b, t) && ValStrs(s.heap, b, t) {
      assert Merged(s.loc)[t] == AllWeakL;
      assert t in s.allweak;
      forall r | HoldsString(s.heap, t, r) ensures r in b { assert ListedString(s, r) && IsBase(m, r); }
      HeldStrs(s.heap, b, t);
    }
  }

  lemma HeldStrs(h: Heap, b: set<Ref>, t: Ref)
    requires forall r :: HoldsString(h, t, r) ==> r in b
    ensures KeyStrs(h, b, t) && ValStrs(h, b, t)
  {
    var ns, arr := Nodes(h, t), ArrayOf(h, t);
    hide Nodes, ArrayOf;
    forall i | 0 <= i < |ns| && !ns[i].val.Nil? ensures StrInB(h, b, ns[i].key) && StrInB(h, b, ns[i].val) {
      if IsStr(h, ns[i].key) { assert HoldsString(h, t, ns[i].key.ref); }
      if IsStr(h, ns[i].val) { assert HoldsString(h, t, ns[i].val.ref); }
    }
    forall i | 0 <= i < |arr| ensures StrInB(h, b, arr[i]) {
      if IsStr(h, arr[i]) { assert arr[i] in arr; assert HoldsString(h, t, arr[i].ref); }
    }
  }

  lemma BaseUpvals(m: Mach, b: set<Ref>)
    requires Base(m) <= b && HeapWF(m.st.heap, m.st.upv) && Exist(m.st.heap, m.st.upv)
    ensures UvsIn(m.st.heap, m.st.upv, b)
  {
    var s := m.st;
    forall id | id in s.upv && s.upv[id].Open? && s.upv[id].touched ensures InB(b, UvValue(s.heap, s.upv, id)) {
      var v := UvValue(s.heap, s.upv, id);
      var th := s.upv[id].thread;
      assert UvWF(s.heap, id, s.upv[id]) && Clear(s.heap, s.upv, Missing(s.heap), s.heap[th]);
      if v.Obj? {
        assert v.ref in s.heap;
        assert FlaggedValue(s, v.ref);
        assert IsBase(m, v.ref);
      }
    }
  }

  // -------------------------------------------------------------- the atomic phase

  // Where the step that runs the atomic phase starts, and stays while it propagates.
  // Only objects of 'wide' will have been marked in the end, and only those of the
  // bound before objects to be finalized are separated.
  ghost predicate InsideReady(m: Mach, wide: set<Ref>) {
    && m.st.inside && !m.st.remarked && !m.st.clearing && m.st.work == [] && m.st.again == m.grayagain
    && AllInTwups(m.st.heap, m.st.twups)
    && RootsLive(m) && Partition(m) && !IsWhite(m.st.color, m.mainthread) && MarkInv(m.st, {})
    && RootsIn(m.st.bound, m.running, m.registry, m.mt) && UvsIn(m.st.heap, m.st.upv, m.st.bound)
    && LooseIn(m.st) && m.st.bound <= wide && ClosedSet(m.st, {}, wide)
    && AllIn(m.finobj, wide) && AllIn(m.tobefnz, wide)
  }

  ghost predicate SameRoots(m: Mach, m': Mach) {
    m'.mainthread == m.mainthread && m'.running == m.running && m'.registry == m.registry && m'.mt == m.mt
  }

  // What marking and clearing, up to the flip, make of state s. 'b' is what strong marking
  // has reached; 'strong' are the colours when objects were separated.
  ghost predicate Collected(m: Mach, s': St, b: set<Ref>) {
    && Reached(m.st, b, m.mainthread, m.running, m.registry, m.mt)
    && Settling(m.st, s', Outside(m.st, b)) && Whites(s'.color) <= Outside(m.st, b)
    && s'.color.Keys == s'.heap.Keys && NoDead(s'.color, s'.white)
    && Finished(m.st, s') && FinalizableMarked(m, s') && TablesClear(s')
  }

  ghost predicate FinalizableMarked(m: Mach, s: St) {
    forall r :: r in m.finobj || r in m.tobefnz ==> r !in Whites(s.color)
  }

  lemma SeparatedMarked(m: Mach, c: Colors, s: St, finobj: seq<Ref>, tobefnz: seq<Ref>)
    requires Separated(c, m.finobj, m.tobefnz, finobj, tobefnz) && NoneOf(Whites(s.color), tobefnz) && Whites(s.color) <= Whites(c)
    ensures FinalizableMarked(m, s)
  {
    SeparatedClear(c, s.color, m.finobj, m.tobefnz, finobj, tobefnz);
    forall r | r in m.finobj || r in m.tobefnz ensures r !in Whites(s.color) {
      assert r in multiset(m.finobj) + multiset(m.tobefnz);
      assert r in multiset(finobj) + multiset(tobefnz);
      if r in finobj { var i :| 0 <= i < |finobj| && finobj[i] == r; } else { var i :| 0 <= i < |tobefnz| && tobefnz[i] == r; }
    }
  }

  // All but the flip.
  method AtomicMarks(g: GlobalState, ghost wide: set<Ref>) returns (ghost b: set<Ref>, ghost strong: Colors)
    requires g.gcstate == Atomic && g.gray == [] && InsideReady(Snap(g), wide)
    modifies g`heap, g`upv, g`color, g`gray, g`loc, g`grayagain, g`again, g`weak, g`ephemeron, g`allweak, g`twups, g`work, g`bound, g`remarked, g`clearing, g`finobj, g`tobefnz, g`gcstate
    ensures g.gcstate == InsideAtomic && Collected(old(Snap(g)), g.View(), b)
    ensures Exact(old(g.View()), b, g.View(), wide) && StrongWithin(old(g.View()), strong) && strong.Keys == old(g.heap.Keys)
    ensures Separated(strong, old(g.finobj), old(g.tobefnz), g.finobj, g.tobefnz) && NoneOf(Whites(g.color), g.tobefnz)
    ensures NothingPending(g.View()) && Cleared(g.View()) && MarkInv(g.View(), {})
    ensures SweepInv(Snap(g).(st := Flip(g.View())), AllGc, 0)
  {
    hide MarkInv, RootsLive, Partition, Settling, NothingPending, Cleared, RootsClear, RootsIn, UvsIn, LooseIn, ClosedSet, NoneOf, AllInTwups, SweepInv, Reached, Outside, Collected, Flip, AllIn, Separated, Finished, InsideReady, MarkedWithin, Whites, Exact, StrongWithin;
    ghost var m := Snap(g);
    AtomicReady(m, wide);
    g.gcstate := InsideAtomic;
    b, strong := MarkAndClear(g, wide);
    ghost var m1 := Snap(g);
    g.bound := g.heap.Keys;
    MarksDone(m, m1, Snap(g), b, strong, wide);
  }

  lemma MarksDone(m: Mach, m1: Mach, m': Mach, b: set<Ref>, strong: Colors, wide: set<Ref>)
    requires RootsLive(m) && Partition(m) && MarkInv(m.st, {}) && !IsWhite(m.st.color, m.mainthread)
    requires m1 == m.(st := m1.st, phase := m1.phase, grayagain := m1.grayagain, finobj := m1.finobj, tobefnz := m1.tobefnz)
    requires m' == m1.(st := m1.st.(bound := m1.st.heap.Keys)) && NothingPending(m1.st) && Cleared(m1.st) && MarkInv(m1.st, {})
    requires Reached(m.st, b, m.mainthread, m.running, m.registry, m.mt)
    requires Whites(m1.st.color) <= Outside(m.st, b) && Settling(m.st, m1.st, Outside(m.st, b))
    requires NoneOf(Whites(m1.st.color), m1.tobefnz) && Whites(m1.st.color) <= Whites(strong)
    requires Separated(strong, m.finobj, m.tobefnz, m1.finobj, m1.tobefnz) && Finished(m.st, m1.st) && Exact(m.st, b, m1.st, wide)
    ensures Exact(m.st, b, m'.st, wide) && NothingPending(m'.st) && Cleared(m'.st) && MarkInv(m'.st, {})
    ensures SweepInv(m'.(st := Flip(m'.st)), AllGc, 0) && Collected(m, m'.st, b)
  {
    hide MarkInv, RootsLive, Partition, Settling, NothingPending, Cleared, NoneOf, SweepInv, Reached, Outside, Collected, Flip, Separated, Finished, MarkedWithin, Whites, TablesClear, Exact;
    ExactBound(m.st, b, m1.st, m'.st, wide);
    ReboundAll(m1.st);
    AllBounds(m.st, m1.st, m'.st);
    SettlingBound(m.st, m1.st, m'.st, Outside(m.st, b));
    TablesSettled(m'.st);
    AtomicDone(m, m', b, strong);
  }

  lemma AtomicReady(m: Mach, wide: set<Ref>)
    requires InsideReady(m, wide)
    ensures m.st.inside && !m.st.remarked && !m.st.clearing && m.st.work == [] && m.st.again == m.grayagain && AllInTwups(m.st.heap, m.st.twups)
    ensures RootsLive(m) && Partition(m) && !IsWhite(m.st.color, m.mainthread) && m.mainthread !in Whites(m.st.color) && MarkInv(m.st, {})
    ensures RootsIn(m.st.bound, m.running, m.registry, m.mt) && UvsIn(m.st.heap, m.st.upv, m.st.bound) && LooseIn(m.st)
    ensures m.st.bound <= wide && ClosedSet(m.st, {}, wide) && AllIn(m.finobj, wide) && AllIn(m.tobefnz, wide)
  {
    hide MarkInv, RootsLive, Partition, RootsIn, UvsIn, LooseIn, ClosedSet, AllIn, AllInTwups;
  }

  lemma AllBounds(s0: St, s: St, s': St)
    requires s' == s.(bound := s'.bound) && NothingPending(s) && Cleared(s) && Finished(s0, s)
    ensures NothingPending(s') && Cleared(s') && Finished(s0, s')
  {
    ClearedBound(s, s');
    TrimReflexive(s.heap);
    AllClearedKept(s, s', s.ephemeron);
    AllClearedKept(s, s', s.allweak);
    forall r | r in s'.ephemeron ensures EphClosed(s', r) { assert EphClosed(s, r); }
  }

  // The atomic part of the step: from a consistent marking to a heap in which everything
  // that is still white is dead.
  method AtomicPhase(g: GlobalState, ghost wide: set<Ref>) returns (ghost b: set<Ref>, ghost strong: Colors, ghost s: St)
    requires g.gcstate == Atomic && g.gray == [] && InsideReady(Snap(g), wide)
    modifies g
    ensures g.sweepgc == old(g.sweepgc) && SameRoots(old(Snap(g)), Snap(g))
    ensures g.currentwhite == !old(g.currentwhite) && g.gcstate == InsideAtomic
    ensures Collected(old(Snap(g)), s, b) && g.View() == Flip(s)
    ensures Exact(old(g.View()), b, s, wide) && StrongWithin(old(g.View()), strong) && strong.Keys == old(g.heap.Keys)
    ensures Separated(strong, old(g.finobj), old(g.tobefnz), g.finobj, g.tobefnz) && NoneOf(Whites(s.color), g.tobefnz)
    ensures Sound(g.View()) <==> NoneOverlooked(s)
    ensures SweepInv(Snap(g), AllGc, 0)
  {
    hide InsideReady, SweepInv, Collected, Flip, MarkInv, NothingPending, Cleared, Sound, NoneOverlooked, AllClear, Separated, Exact, StrongWithin;
    b, strong := AtomicMarks(g, wide);
    s := g.View();
    AllSettled(s);
    FlipSound(s);
    FlipWhite(g);
  }

  method FlipWhite(g: GlobalState)
    modifies g`currentwhite, g`inside, g`remarked, g`clearing
    ensures g.View() == Flip(old(g.View())) && g.currentwhite == !old(g.currentwhite)
  {
    g.currentwhite := !g.currentwhite;
    g.inside, g.remarked, g.clearing := false, false, false;
  }

  lemma AtomicDone(m: Mach, m': Mach, b: set<Ref>, strong: Colors)
    requires RootsLive(m) && Partition(m) && MarkInv(m.st, {}) && !IsWhite(m.st.color, m.mainthread)
    requires m' == m.(st := m'.st, phase := m'.phase, grayagain := m'.grayagain, finobj := m'.finobj, tobefnz := m'.tobefnz)
    requires m'.st.bound == m'.st.heap.Keys && NothingPending(m'.st) && MarkInv(m'.st, {})
    requires Reached(m.st, b, m.mainthread, m.running, m.registry, m.mt)
    requires Whites(m'.st.color) <= Outside(m.st, b) && Settling(m.st, m'.st, Outside(m.st, b))
    requires NoneOf(Whites(m'.st.color), m'.tobefnz) && Whites(m'.st.color) <= Whites(strong)
    requires Separated(strong, m.finobj, m.tobefnz, m'.finobj, m'.tobefnz) && Finished(m.st, m'.st) && TablesClear(m'.st)
    ensures SweepInv(m'.(st := Flip(m'.st)), AllGc, 0) && Collected(m, m'.st, b)
  {
    SeparatedMarked(m, strong, m'.st, m'.finobj, m'.tobefnz);
    hide Finished, FinalizableMarked, TablesClear, MarkInv, RootsLive, Partition, Settling, NothingPending, RootsClear, NoneOf, SweepInv, Reached, Outside, Flip, SameObjs, Separated, NoDead;
    MarkSound(m.st);
    ReachedRoots(m.st, b, Whites(m'.st.color), m.mainthread, m.running, m.registry, m.mt);
    SeparatedClear(strong, m'.st.color, m.finobj, m.tobefnz, m'.finobj, m'.tobefnz);
    FlipInv(m, m', Outside(m.st, b));
    MarkedKeys(m'.st);
  }

  lemma MarkedKeys(s: St)
    requires MarkInv(s, {})
    ensures s.color.Keys == s.heap.Keys && NoDead(s.color, s.white)
  {}

  lemma ReachedRoots(s: St, b: set<Ref>, W: iset<Ref>, mainthread: Ref, running: Ref, registry: Value, mt: seq<Option<Ref>>)
    requires Reached(s, b, mainthread, running, registry, mt) && W <= Outside(s, b)
    ensures RootsClear(W, running, registry, mt) && mainthread !in W
  {}

  // ----------------------------------------------------------------------- sweeping

  // Enters the first sweep state, up to the first live object.
  method EnterSweep(g: GlobalState)
    requires SweepInv(Snap(g), AllGc, 0)
    modifies g`heap, g`upv, g`color, g`loc, g`bound, g`stuck, g`allgc, g`finobj, g`tobefnz, g`gcstate, g`sweepgc
    ensures g.gcstate == SwpAllGc && Sweeping(old(Snap(g)), Snap(g)) && g.finobj == old(g.finobj) && g.tobefnz == old(g.tobefnz)
    ensures KeepsColors(old(g.color), g.color, old(g.allgc))
    ensures Orderly(Snap(g))
  {
    hide SweepInv, Sweeping, RootsLive, Partition, RestOk, SweptTo, Orderly, KeepsColors;
    ghost var m := Snap(g);
    g.gcstate := SwpAllGc;
    SweepPhase(m, Snap(g));
    ghost var m1 := Snap(g);
    var next := SweepToLive(g, 0);
    ghost var m2 := Snap(g);
    g.sweepgc := next;
    SweepPhase(m2, Snap(g));
    SweepingPhase(m, m1, m2, Snap(g));
    SweepEnds(Snap(g));
  }

  // How many objects of the list the sweep has still to come to.
  function Unswept(sweepgc: Option<nat>, l: seq<Ref>): nat {
    if Pos(sweepgc, l) < |l| then |l| - Pos(sweepgc, l) else 0
  }

  // Goes on with the sweep of 'allgc' up to the next live object.
  method SweepOnward(g: GlobalState)
    requires g.gcstate == SwpAllGc && g.sweepgc.Some? && Orderly(Snap(g))
    modifies g`heap, g`upv, g`color, g`loc, g`bound, g`stuck, g`allgc, g`finobj, g`tobefnz, g`sweepgc
    ensures SamePrefix(old(g.allgc), g.allgc, old(g.sweepgc.value)) && g.finobj == old(g.finobj) && g.tobefnz == old(g.tobefnz)
    ensures g.sweepgc == None || g.sweepgc == Some(old(g.sweepgc.value) + 1)
    ensures Unswept(g.sweepgc, g.allgc) <= old(Unswept(g.sweepgc, g.allgc))
    ensures Sweeping(old(Snap(g)), Snap(g)) && SweepInv(Snap(g), AllGc, Pos(g.sweepgc, g.allgc))
    ensures Orderly(Snap(g))
  {
    hide Orderly, Sweeping, SweepInv, SamePrefix;
    ghost var m := Snap(g);
    SweepStarts(m);
    var next := SweepToLive(g, g.sweepgc.value);
    ghost var m1 := Snap(g);
    g.sweepgc := next;
    SweepPhase(m1, Snap(g));
    SweepingPhase(m, m, m1, Snap(g));
    SweepEnds(Snap(g));
  }

  // The state, the position and the gray lists do not matter for what sweeping keeps.
  lemma SweepPhase(m: Mach, m': Mach)
    requires m' == m.(phase := m'.phase, sweepgc := m'.sweepgc)
    ensures forall w, p: nat :: SweepInv(m, w, p) ==> SweepInv(m', w, p)
  {
    hide RestOk, SweptTo;
  }

  lemma SweepingPhase(m: Mach, m1: Mach, m2: Mach, m': Mach)
    requires m1 == m.(phase := m1.phase, sweepgc := m1.sweepgc) && m' == m2.(phase := m'.phase, sweepgc := m'.sweepgc)
    requires Sweeping(m1, m2)
    ensures Sweeping(m, m')
  {}

  lemma SweepEnds(m: Mach)
    requires m.phase == SwpAllGc ==> SweepInv(m, AllGc, Pos(m.sweepgc, m.allgc)) && m.sweepgc != Some(0)
    requires m.phase == SwpFinObj ==> SweepInv(m, FinObj, Pos(m.sweepgc, m.finobj))
    requires m.phase == SwpToBeFnz ==> SweepInv(m, ToBeFnz, Pos(m.sweepgc, m.tobefnz))
    requires m.phase == SwpEnd ==> SweepInv(m, ToBeFnz, |m.tobefnz|) && m.sweepgc.None?
    requires m.phase in {SwpAllGc, SwpFinObj, SwpToBeFnz, SwpEnd}
    ensures Orderly(m)
  {
    hide RestOk, SweptTo, RootsLive, Partition;
  }

  lemma SweepStarts(m: Mach)
    requires Orderly(m)
    ensures m.phase == SwpAllGc ==> SweepInv(m, AllGc, Pos(m.sweepgc, m.allgc)) && m.sweepgc != Some(0)
    ensures m.phase == SwpFinObj ==> SweepInv(m, FinObj, Pos(m.sweepgc, m.finobj))
    ensures m.phase == SwpToBeFnz ==> SweepInv(m, ToBeFnz, Pos(m.sweepgc, m.tobefnz))
    ensures m.phase == SwpEnd ==> SweepInv(m, ToBeFnz, |m.tobefnz|) && m.sweepgc.None?
  {
    hide RestOk, SweptTo, RootsLive, Partition, MarkInv;
  }

  // A list that has been swept to its end: the next one begins.
  lemma SweepNext(m: Mach)
    ensures SweepInv(m, AllGc, |m.allgc|) ==> SweepInv(m, FinObj, 0)
    ensures SweepInv(m, FinObj, |m.finobj|) ==> SweepInv(m, ToBeFnz, 0)
  {
    hide RestOk, RootsLive, Partition;
  }

  function SweptList(p: GcPhase): Which {
    match p
    case SwpAllGc => AllGc
    case SwpFinObj => FinObj
    case _ => ToBeFnz
  }

  predicate Sweeps(p: GcPhase) {
    p == SwpAllGc || p == SwpFinObj || p == SwpToBeFnz
  }

  function NextSweep(p: GcPhase): GcPhase {
    match p
    case SwpAllGc => SwpFinObj
    case SwpFinObj => SwpToBeFnz
    case _ => SwpEnd
  }

  function StartPos(p: GcPhase): Option<nat> {
    if p == SwpEnd then None else Some(0)
  }

  // How many objects a step that may sweep 'count' will sweep.
  ghost function Swept1(m: Mach, count: nat): nat
    requires m.sweepgc.Some? && m.sweepgc.value <= |TheList(m, SweptList(m.phase))|
  {
    var n := |TheList(m, SweptList(m.phase))| - m.sweepgc.value;
    if count < n then count else n
  }

  // What a step of the sweep does to the lists: it goes on from the position for 'count'
  // objects; at the end of the list the next state begins.
  ghost predicate SweptBy(m: Mach, m': Mach, count: nat) {
    var w := SweptList(m.phase);
    if m.sweepgc.None? then m' == Next(m)
    else
      && m.sweepgc.value <= |TheList(m, w)|
      && (m'.phase == m.phase <==> count < |TheList(m, w)| - m.sweepgc.value)
      && (m'.phase == m.phase ==> m'.sweepgc.Some?)
      && (m'.phase != m.phase ==> m'.phase == NextSweep(m.phase) && m'.sweepgc == StartPos(m'.phase))
      && SweptLists(m, m', w, m.sweepgc.value, if m'.phase == m.phase then m'.sweepgc.value else |TheList(m', w)|, Swept1(m, count))
  }

  // Sweeps part of the current list.
  method SweepSome(g: GlobalState, count: nat)
    requires Sweeps(g.gcstate) && g.sweepgc.Some? && Orderly(Snap(g))
    modifies g`heap, g`upv, g`color, g`loc, g`bound, g`stuck, g`allgc, g`finobj, g`tobefnz, g`sweepgc
    ensures Sweeping(old(Snap(g)), Snap(g))
    ensures SweptBy(old(Snap(g)), if g.sweepgc.Some? then Snap(g) else Next(Snap(g)), count)
    ensures Orderly(Snap(g))
  {
    hide Orderly, SweepInv, Sweeping, SweptLists, SweptBy, Next, NextSweep, StartPos, SweptList;
    ghost var m := Snap(g);
    SweepStarts(m);
    SomePos(m);
    var next := SweepList(g, SweptList(g.gcstate), g.sweepgc.value, count);
    ghost var m1 := Snap(g);
    SomeSwept(m, m1, next, count);
    g.sweepgc := next;
    SweepPhase(m1, Snap(g));
    SweepingPhase(m, m, m1, Snap(g));
    SomeEnds(Snap(g));
  }

  // The next state of the sweep.
  function Next(m: Mach): Mach {
    m.(phase := NextSweep(m.phase), sweepgc := StartPos(NextSweep(m.phase)))
  }

  lemma SomePos(m: Mach)
    requires Sweeps(m.phase) && m.sweepgc.Some? && Orderly(m)
    ensures SweepInv(m, SweptList(m.phase), m.sweepgc.value) && m.sweepgc.value <= |TheList(m, SweptList(m.phase))|
    ensures m.phase == SwpAllGc ==> m.sweepgc.value > 0
  {
    hide Orderly, SweepInv;
    SweepStarts(m);
    SweepFacts(m, SweptList(m.phase), m.sweepgc.value);
  }

  lemma SomeEnds(m: Mach)
    requires Sweeps(m.phase) && SweepInv(m, SweptList(m.phase), Pos(m.sweepgc, TheList(m, SweptList(m.phase))))
    requires m.phase == SwpAllGc ==> m.sweepgc != Some(0)
    ensures Orderly(m)
  {
    hide Orderly, SweepInv;
    SweepEnds(m);
  }

  lemma SomeSwept(m: Mach, m': Mach, next: Option<nat>, count: nat)
    requires Sweeps(m.phase) && m.sweepgc.Some? && m'.phase == m.phase && m.sweepgc.value <= |TheList(m, SweptList(m.phase))|
    requires SweptLists(m, m', SweptList(m.phase), m.sweepgc.value, Pos(next, TheList(m', SweptList(m.phase))), Swept1(m, count))
    requires next.Some? <==> count < |TheList(m, SweptList(m.phase))| - m.sweepgc.value
    ensures SweptBy(m, if next.Some? then m'.(sweepgc := next) else Next(m'.(sweepgc := next)), count)
    ensures next.Some? ==> next.value >= m.sweepgc.value
  {
    hide KeepsColors, Sublist, SamePrefix;
  }

  // The current list is done: the next state begins.
  method NextState(g: GlobalState)
    requires Sweeps(g.gcstate) && g.sweepgc.None? && Orderly(Snap(g))
    modifies g`gcstate, g`sweepgc
    ensures Snap(g) == Next(old(Snap(g))) && Sweeping(old(Snap(g)), Snap(g))
    ensures Orderly(Snap(g))
  {
    hide Orderly, Sweeping, NextSweep, StartPos, Sweeps;
    NextOrderly(Snap(g));
    g.gcstate := NextSweep(g.gcstate);
    g.sweepgc := StartPos(g.gcstate);
  }

  lemma NextOrderly(m: Mach)
    requires Sweeps(m.phase) && m.sweepgc.None? && Orderly(m)
    ensures Orderly(Next(m)) && Sweeping(m, Next(m))
  {
    hide Orderly, SweepInv, Sweeping;
    SweepStarts(m);
    SweepNext(m);
    SweepingReflexive(m);
    SweepPhase(m, Next(m));
    SweepingPhase(m, m, m, Next(m));
    SweepEnds(Next(m));
  }

  lemma NextSwept(m: Mach, count: nat)
    requires Sweeps(m.phase) && m.sweepgc.None?
    ensures SweptBy(m, Next(m), count)
  {}

  // sweepstep: at most 'count' objects; at the end of a list, the next state begins.
  method SweepStep(g: GlobalState, count: nat)
    requires Sweeps(g.gcstate) && Orderly(Snap(g))
    modifies g`heap, g`upv, g`color, g`loc, g`bound, g`stuck, g`allgc, g`finobj, g`tobefnz, g`gcstate, g`sweepgc
    ensures Sweeping(old(Snap(g)), Snap(g)) && SweptBy(old(Snap(g)), Snap(g), count)
    ensures Orderly(Snap(g))
  {
    hide Orderly, Sweeping, SweptLists, SweptBy, Sweeps, Next;
    ghost var m := Snap(g);
    if g.sweepgc.Some? {
      SweepSome(g, count);
      if g.sweepgc.None? {  // the list is done
        ghost var m1 := Snap(g);
        NextState(g);
        SweepingTransitive(m, m1, Snap(g));
      }
    } else {
      NextSwept(m, count);
      NextState(g);
    }
  }

  ghost function Ended(m: Mach): Mach {
    m.(st := Whiten(m.st, m.mainthread), phase := CallFin)
  }

  // GCSswpend: the main thread, which is in no list, is swept.
  method FinishSweep(g: GlobalState)
    requires g.gcstate == SwpEnd && Orderly(Snap(g))
    modifies g`color, g`gcstate, g`stuck
    ensures Snap(g) == Ended(old(Snap(g))) && Sweeping(old(Snap(g)), Snap(g))
    ensures Orderly(Snap(g))
  {
    hide Orderly, Sweeping;
    ghost var m := Snap(g);
    FinishInv(m);
    g.color := g.color[g.mainthread := White(g.currentwhite)];
    g.stuck := g.stuck - {g.mainthread};
    g.gcstate := CallFin;
  }

  lemma FinishInv(m: Mach)
    requires Orderly(m) && m.phase == SwpEnd
    ensures var m' := m.(st := Whiten(m.st, m.mainthread), phase := CallFin);
      Orderly(m') && Sweeping(m, m')
  {
    hide RestOk, Partition, RootsLive, Swept;
    var m1 := m.(st := Whiten(m.st, m.mainthread));
    MainFree(m);
    WhitenRest(m.st, m.mainthread);
    WhitenRoots(m, m.mainthread);
    FinishSwept(m);
    FinishSweeping(m);
  }

  lemma MainFree(m: Mach)
    requires RootsLive(m) && Partition(m)
    ensures m.mainthread !in m.st.fixed && m.mainthread in m.st.heap && m.mainthread !in Gone(m.st)
  {
    var o := m.mainthread;
    var all := multiset(m.allgc) + multiset(m.finobj) + multiset(m.tobefnz) + multiset(m.st.fixed) + multiset{o};
    assert all[o] == multiset(m.st.heap.Keys)[o] <= 1;
  }

  lemma WhitenRoots(m: Mach, o: Ref)
    requires RootsLive(m) && Partition(m) && Gone(Whiten(m.st, o)) == Gone(m.st)
    ensures RootsLive(m.(st := Whiten(m.st, o))) && Partition(m.(st := Whiten(m.st, o)))
    ensures RootsLive(m.(st := Whiten(m.st, o), phase := CallFin)) && Partition(m.(st := Whiten(m.st, o), phase := CallFin))
  {}

  lemma FinishSwept(m: Mach)
    requires Swept(m) && m.phase == SwpEnd
    ensures Swept(m.(st := Whiten(m.st, m.mainthread), phase := CallFin))
  {}

  lemma FinishSweeping(m: Mach)
    requires Gone(Whiten(m.st, m.mainthread)) == Gone(m.st)
    ensures Sweeping(m, m.(st := Whiten(m.st, m.mainthread), phase := CallFin))
  {}

  // ------------------------------------------------------------ the atomic state

  // propagateall, to make sure that the gray list is empty.
  method PropagateRest(g: GlobalState, ghost wide: set<Ref>)
    requires g.gcstate == Atomic && InsideReady(Snap(g), wide)
    modifies g
    ensures g.gcstate == Atomic && g.currentwhite == old(g.currentwhite) && SameRoots(old(Snap(g)), Snap(g))
    ensures g.finobj == old(g.finobj) && g.tobefnz == old(g.tobefnz) && g.bound == old(g.bound)
    ensures g.gray == [] && Progress(old(g.View()), g.View())
    ensures InsideReady(Snap(g), wide)
  {
    hide MarkInv, Progress, InsideReady;
    ghost var m := Snap(g);
    InsideFacts(m, wide);
    g.PropagateAll();
    ProgressWhites(m.st, g.View());
    InsideDone(m, Snap(g), wide);
  }

  // The state in which the step begins: the bounds are the least possible ones.
  ghost function Entered(m: Mach): Mach {
    m.(st := m.st.(inside := true, bound := Least(m.st, Base(m))))
  }

  lemma LeastMono(s: St, base: set<Ref>, base': set<Ref>)
    requires base <= base'
    ensures Least(s, base) <= Least(s, base')
  {
    forall r | r in Least(s, base) ensures r in Least(s, base') {
      assert Forced(s, base, r);
      assert forall b: set<Ref> :: ClosedSet(s, base', b) ==> ClosedSet(s, base, b);
    }
  }

  lemma WideExists(m: Mach)
    requires RootsLive(m)
    ensures WideBase(m) <= m.st.heap.Keys
  {}

  lemma WideIn(m: Mach, b: set<Ref>)
    requires WideBase(m) <= b
    ensures AllIn(m.finobj, b) && AllIn(m.tobefnz, b)
  {}

  lemma EnterBounds(m: Mach)
    requires RootsLive(m) && MarkInv(m.st, {})
    ensures Base(m) <= WideBase(m) && Base(m) <= Least(m.st, Base(m)) <= Least(m.st, WideBase(m))
    ensures MarkInv(m.st.(bound := Least(m.st, Base(m))), {}) && ClosedSet(m.st, {}, Least(m.st, WideBase(m)))
    ensures AllIn(m.finobj, Least(m.st, WideBase(m))) && AllIn(m.tobefnz, Least(m.st, WideBase(m)))
  {
    hide MarkInv, RootsLive, ClosedSet;
    WideExists(m);
    ReboundLeast(m.st, Base(m));
    ReboundLeast(m.st, WideBase(m));
    LeastMono(m.st, Base(m), WideBase(m));
    BoundIsClosed(m.st.(bound := Least(m.st, WideBase(m))));
    SameClosed(m.st.(bound := Least(m.st, WideBase(m))), m.st, Least(m.st, WideBase(m)));
    WideIn(m, Least(m.st, WideBase(m)));
  }

  lemma EnterRoots(m: Mach, b: set<Ref>)
    requires RootsLive(m) && MarkInv(m.st, {}) && Base(m) <= b
    ensures RootsIn(b, m.running, m.registry, m.mt) && UvsIn(m.st.heap, m.st.upv, b) && LooseIn(m.st.(bound := b))
  {
    MarkSound(m.st);
    BaseUpvals(m, b);
    BaseStrings(m, b);
    hide MarkInv;
    BaseRoots(m, b);
  }

  lemma EnterRootsLive(m: Mach, m': Mach)
    requires RootsLive(m) && Partition(m) && m' == m.(st := m.st.(inside := true, bound := m'.st.bound))
    ensures RootsLive(m') && Partition(m')
  {
    assert Gone(m'.st) == Gone(m.st);
  }

  lemma EnterInside(m: Mach)
    requires m.phase == Atomic && Inv(m)
    ensures InsideReady(Entered(m), Least(m.st, WideBase(m)))
  {
    hide MarkInv, RootsLive, Partition, RootsIn, UvsIn, LooseIn, ClosedSet, AllIn, AllInTwups, Base, WideBase, Least;
    InvMark(m);
    EnterBounds(m);
    EnterRoots(m, Least(m.st, Base(m)));
    InsideInv(m.st.(bound := Least(m.st, Base(m))));
    EnterRootsLive(m, Entered(m));
    EnterClosed(m.st, Entered(m).st, Least(m.st, WideBase(m)));
    EnterLoose(m.st, Entered(m).st);
  }

  lemma EnterClosed(s: St, s': St, b: set<Ref>)
    requires ClosedSet(s, {}, b) && s' == s.(inside := s'.inside, bound := s'.bound)
    ensures ClosedSet(s', {}, b)
  {}

  lemma EnterLoose(s: St, s': St)
    requires LooseIn(s.(bound := s'.bound)) && s' == s.(inside := s'.inside, bound := s'.bound)
    ensures LooseIn(s')
  {}

  lemma InsideFacts(m: Mach, wide: set<Ref>)
    requires InsideReady(m, wide)
    ensures MarkInv(m.st, {}) && m.st.inside && !m.st.remarked && m.st.again == m.grayagain
  {}

  // Propagation keeps what the bounds need.
  lemma InsideBounds(s: St, s': St, wide: set<Ref>)
    requires MarkInv(s, {}) && MarkInv(s', {}) && Progress(s, s') && UvsIn(s.heap, s.upv, s.bound) && LooseIn(s)
    requires s.bound <= wide && ClosedSet(s, {}, wide)
    ensures UvsIn(s'.heap, s'.upv, s'.bound) && LooseIn(s') && s'.bound == s.bound && ClosedSet(s', {}, wide)
  {
    ProgressSettling(s, s');
    LooseSettling(s, s', Losable(s));
    UvsInTrim(s.heap, s.upv, s'.heap, s'.upv, s.bound);
    BoundMarked(s');
    hide MarkInv, Settling;
    StillClosed(s, s', wide);
  }

  lemma InsideTwups(s: St, s': St)
    requires AllInTwups(s.heap, s.twups) && Trim(s.heap, s'.heap) && s'.twups == s.twups
    ensures AllInTwups(s'.heap, s'.twups)
  {
    forall th | th in s'.heap && s'.heap[th].Thread? && s'.heap[th].openupval != [] ensures th in s'.twups {
      assert ObjTrim(s.heap[th], s'.heap[th]);
    }
  }

  lemma InsideDone(m: Mach, m': Mach, wide: set<Ref>)
    requires InsideReady(m, wide) && m' == m.(st := m'.st, grayagain := m'.grayagain) && m'.st.work == m.st.work
    requires Progress(m.st, m'.st) && m'.st.again == m'.grayagain && MarkInv(m'.st, {})
    ensures InsideReady(m', wide)
  {
    hide MarkInv, RootsLive, Partition, LosesOnly, ModesKept, RootsIn, UvsIn, LooseIn, ClosedSet, AllIn, AllInTwups, Trim;
    MarkSound(m.st);
    StaysMarked(m.st.color, m'.st.color, m.mainthread);
    MarkRoots(m, m');
    TrimKeys(m.st.heap, m'.st.heap);
    PartitionSame(m, m');
    InsideBounds(m.st, m'.st, wide);
    InsideTwups(m.st, m'.st);
  }

  lemma PartitionSame(m: Mach, m': Mach)
    requires Partition(m) && m' == m.(st := m'.st, grayagain := m'.grayagain)
    requires m'.st.heap.Keys == m.st.heap.Keys && m'.st.fixed == m.st.fixed
    ensures Partition(m')
  {}

  // A collection, from the state m in which the atomic step begins to the state m' in
  // which it ends; s is the state just before the flip of whites. The objects of 'b' are
  // what is strongly reachable in m. They survive, and so do entries of tables with key
  // and value in 'b'. What is outside a set that is closed under strong references, and
  // has the roots and the objects with finalizers, is collected.
  ghost predicate Collection(m: Mach, s: St, m': Mach, b: set<Ref>) {
    && Collected(m, s, b) && Exact(Entered(m).st, b, s, Least(m.st, WideBase(m)))
    && Gone(m'.st) == Missing(m.st.heap) + Whites(s.color) && m'.st.heap.Keys <= m.st.heap.Keys
    && m'.st.upv.Keys == m.st.upv.Keys && m'.st.stuck <= m.st.stuck && m'.st.fixed == m.st.fixed
    && (forall r :: r in s.heap && r !in Whites(s.color) ==> r in m'.st.heap)
    && (forall r :: r in m'.st.heap ==> r in s.heap && m'.st.heap[r] == s.heap[r])
    && (forall id :: id in m.st.upv ==> id in m'.st.upv && UvValue(m'.st.heap, m'.st.upv, id) == UvValue(m.st.heap, m.st.upv, id))
  }

  // The objects to be finalized: unmarked when everything strongly reachable, but not
  // more than that, had been marked. They have been marked then, and not been swept yet.
  ghost predicate ToFinalize(m: Mach, m': Mach) {
    && (forall r :: r in m'.tobefnz ==> r in m'.st.color && !m'.st.color[r].White?) &&
    exists strong: Colors ::
      && Separated(strong, m.finobj, m.tobefnz, m'.finobj, m'.tobefnz) && strong.Keys == m.st.heap.Keys
      && forall b: set<Ref> :: ClosedSet(m.st, Base(m), b) ==> NoMoreThan(m.st.heap, strong, b)
  }

  // Only objects of b, and strings, are marked.
  ghost predicate NoMoreThan(h: Heap, c: Colors, b: set<Ref>) {
    forall r :: r in c && !c[r].White? ==> r in b || IsStr(h, Obj(r))
  }

  // GCSatomic: the rest of propagation, the atomic step, and the start of the sweep. The
  // heap is sound after it if and only if nothing has been overlooked.
  method AtomicStep(g: GlobalState) returns (ghost b: set<Ref>, ghost s: St)
    requires g.gcstate == Atomic && Inv(Snap(g))
    modifies g
    ensures g.gcstate == SwpAllGc && g.currentwhite == !old(g.currentwhite) && SameRoots(old(Snap(g)), Snap(g))
    ensures Collection(old(Snap(g)), s, Snap(g), b) && ToFinalize(old(Snap(g)), Snap(g))
    ensures Inv(Snap(g)) <==> NoneOverlooked(s)
    ensures Orderly(Snap(g))
  {
    hide Inv, InsideReady, Progress, Collected, Collection, ToFinalize, Sweeping, SweepInv, Orderly, Sound, NoneOverlooked, Separated, Exact, StrongWithin, Least, Base, WideBase;
    ghost var m := Snap(g);
    EnterInside(m);
    g.inside, g.bound := true, Least(m.st, Base(m));
    ghost var wide := Least(m.st, WideBase(m));
    PropagateRest(g, wide);
    ghost var m1 := Snap(g);
    ghost var strong;
    b, strong, s := AtomicPhase(g, wide);
    ghost var m2 := Snap(g);
    EnterSweep(g);
    SweepingRoots(m2, Snap(g));
    StepCollects(m, m1, s, m2, Snap(g), b);
    TrimKeysOf(m, m1);
    StepFinalizes(m, m1, s, m2, Snap(g), strong);
    StepSound(m2, Snap(g));
  }

  lemma SweepingRoots(m: Mach, m': Mach)
    requires Sweeping(m, m')
    ensures m'.mainthread == m.mainthread && m'.running == m.running && m'.registry == m.registry && m'.mt == m.mt
    ensures m'.st.white == m.st.white
  {}

  lemma StepSound(m: Mach, m': Mach)
    requires SweepInv(m, AllGc, 0) && Sweeping(m, m') && Orderly(m')
    ensures Inv(m') <==> Sound(m.st)
  {
    SweepFacts(m, AllGc, 0);
    SweepingSound(m, m');
    hide Inv, Orderly, Sound;
    InvRest(m');
    OrderlyPhase(m');
  }

  lemma OrderlyPhase(m: Mach)
    requires Orderly(m)
    ensures !KeepInvariant(m.phase) && m.phase != InsideAtomic
  {}

  // What was closed after propagation was closed before.
  lemma ReachedBack(s: St, s': St, b: set<Ref>, mainthread: Ref, running: Ref, registry: Value, mt: seq<Option<Ref>>)
    requires MarkInv(s, {}) && Settling(s, s', iset{}) && Reached(s', b, mainthread, running, registry, mt)
    ensures Reached(s, b, mainthread, running, registry, mt) && Outside(s, b) == Outside(s', b)
  {
    hide MarkInv, Settling, ModesKept, StrongClosed, MarkedWithin, RootsClear, Outside, UvsIn;
    OutsideBack(s, s', b);
    FlagsBack(s, s', b);
    MarkedWF(s);
    if ModesKept(s) { SettlingModes(s, s'); }
    ReachedStrong(s, s', b);
  }

  // Flagged values were within the bound before, too: the flag is still there, or the value
  // has been marked.
  lemma FlagsBack(s: St, s': St, b: set<Ref>)
    requires MarkInv(s, {}) && Settling(s, s', iset{}) && UvsIn(s'.heap, s'.upv, b) && MarkedWithin(s'.color, b)
    ensures UvsIn(s.heap, s.upv, b)
  {
    MarkedWF(s);
    BoundMarked(s);
    forall id | id in s.upv && s.upv[id].Open? && s.upv[id].touched ensures InB(b, UvValue(s.heap, s.upv, id)) {
      OpenExists(s, id);
      TrimUvValue(s.heap, s.upv, s'.heap, s'.upv, id);
    }
  }

  lemma CollectedBack(m: Mach, m1: Mach, s: St, b: set<Ref>)
    requires MarkInv(m.st, {}) && Settling(m.st, m1.st, iset{}) && SameRoots(m, m1) && Collected(m1, s, b)
    requires m1.finobj == m.finobj && m1.tobefnz == m.tobefnz
    ensures Collected(m, s, b)
  {
    hide MarkInv, Settling, Reached, Outside, Finished, TablesClear;
    FinishedBack(m.st, m1.st, s);
    ReachedBack(m.st, m1.st, b, m.mainthread, m.running, m.registry, m.mt);
    SettlingTransitive(m.st, m1.st, s, Outside(m.st, b), iset{});
  }

  lemma FinishedBack(s: St, s': St, s'': St)
    requires MarkInv(s, {}) && Settling(s, s', iset{}) && Finished(s', s'')
    ensures Finished(s, s'')
  {
    MarkedWF(s);
    hide MarkInv, Settling, ModesKept, StrongClosed, Marked;
    if ModesKept(s) {
      SettlingModes(s, s');
      ReachedStrong(s, s', Marked(s''.color));
    }
  }

  lemma EnteredSettling(m: Mach, s: St)
    requires Progress(Entered(m).st, s) && !m.st.clearing
    ensures Settling(m.st, s, iset{})
  {
    ProgressSettling(Entered(m).st, s);
    hide Trim, SameUpvals, LosesOnly;
  }

  lemma EnteredLosable(m: Mach)
    requires !m.st.clearing
    ensures Losable(Entered(m).st) == iset{}
  {}

  lemma EnteredBound(m: Mach, s: St)
    requires Progress(Entered(m).st, s)
    ensures s.bound == Entered(m).st.bound
  {}

  lemma StepCollects(m: Mach, m1: Mach, s: St, m2: Mach, m': Mach, b: set<Ref>)
    requires m.phase == Atomic && Inv(m) && Progress(Entered(m).st, m1.st) && SameRoots(m, m1)
    requires m1.finobj == m.finobj && m1.tobefnz == m.tobefnz
    requires Collected(m1, s, b) && Exact(m1.st, b, s, Least(m.st, WideBase(m))) && m2.st == Flip(s) && Sweeping(m2, m')
    ensures Collection(m, s, m', b)
  {
    hide Inv, Collected, Progress, Settling, Exact, Least, Sweeping, WideBase, Base;
    MarkFacts(m);
    MarkedWF(m.st);
    EnteredSettling(m, m1.st);
    CollectedBack(m, m1, s, b);
    ProgressSettling(Entered(m).st, m1.st);
    EnteredLosable(m);
    EnteredBound(m, m1.st);
    ExactBefore(Entered(m).st, m1.st, b, s, Least(m.st, WideBase(m)));
    CollectedGone(m, s, b);
    SweepingKeeps(s, m2, m');
    CollectedValues(m, s, b);
  }

  lemma MarkedWF(s: St)
    requires MarkInv(s, {})
    ensures HeapWF(s.heap, s.upv)
  {}

  lemma CollectedGone(m: Mach, s: St, b: set<Ref>)
    requires Collected(m, s, b)
    ensures Gone(Flip(s)) == Missing(m.st.heap) + Whites(s.color) && s.heap.Keys == m.st.heap.Keys
    ensures s.upv.Keys == m.st.upv.Keys && s.stuck == m.st.stuck && s.fixed == m.st.fixed
  {
    FlipGone(s);
    assert s.heap.Keys == m.st.heap.Keys;
  }

  lemma CollectedValues(m: Mach, s: St, b: set<Ref>)
    requires Collected(m, s, b) && HeapWF(m.st.heap, m.st.upv)
    ensures forall id :: id in m.st.upv ==> id in s.upv && UvValue(s.heap, s.upv, id) == UvValue(m.st.heap, m.st.upv, id)
  {
    forall id | id in m.st.upv ensures id in s.upv && UvValue(s.heap, s.upv, id) == UvValue(m.st.heap, m.st.upv, id) {
      TrimUvValue(m.st.heap, m.st.upv, s.heap, s.upv, id);
    }
  }

  lemma SweepingKeeps(s: St, m: Mach, m': Mach)
    requires m.st == Flip(s) && Sweeping(m, m')
    ensures Gone(m'.st) == Gone(Flip(s)) && m'.st.heap.Keys <= s.heap.Keys
    ensures m'.st.upv.Keys == s.upv.Keys && m'.st.stuck <= s.stuck && m'.st.fixed == s.fixed
    ensures forall r :: r in s.heap && r !in Gone(Flip(s)) ==> r in m'.st.heap
    ensures forall r :: r in m'.st.heap ==> r in s.heap && m'.st.heap[r] == s.heap[r]
    ensures forall id :: id in s.upv ==> id in m'.st.upv && UvValue(m'.st.heap, m'.st.upv, id) == UvValue(s.heap, s.upv, id)
  {
    forall r | r in s.heap && r !in Gone(m.st) ensures r in m'.st.heap { assert r !in Gone(m'.st); }
  }

  lemma TrimKeysOf(m: Mach, m': Mach)
    requires Progress(Entered(m).st, m'.st)
    ensures m'.st.heap.Keys == m.st.heap.Keys
  {}

  lemma OrderlyKeys(m: Mach)
    requires Orderly(m)
    ensures m.st.color.Keys == m.st.heap.Keys && Finalizable(m.st.heap, m.tobefnz)
  {}

  // The sweep that ends the step does not touch the objects to be finalized.
  lemma StillMarked(m: Mach, m': Mach, s: St, r: Ref)
    requires NoneOf(Whites(s.color), m.tobefnz) && m.st == Flip(s) && r in m.tobefnz && m'.tobefnz == m.tobefnz
    requires Partition(m) && KeepsColors(m.st.color, m'.st.color, m.allgc) && Orderly(m')
    ensures r in m'.st.color && !m'.st.color[r].White?
  {
    OrderlyKeys(m');
    hide Orderly;
    var i :| 0 <= i < |m.tobefnz| && m.tobefnz[i] == r;
    Unique(m, ToBeFnz, i);
  }

  lemma StepFinalizes(m: Mach, m1: Mach, s: St, m2: Mach, m': Mach, strong: Colors)
    requires m1.finobj == m.finobj && m1.tobefnz == m.tobefnz && m2.finobj == m'.finobj && m2.tobefnz == m'.tobefnz
    requires Separated(strong, m1.finobj, m1.tobefnz, m2.finobj, m2.tobefnz) && StrongWithin(m1.st, strong) && Progress(Entered(m).st, m1.st)
    requires strong.Keys == m.st.heap.Keys && NoneOf(Whites(s.color), m2.tobefnz) && m2.st == Flip(s)
    requires SweepInv(m2, AllGc, 0) && KeepsColors(m2.st.color, m'.st.color, m2.allgc) && Orderly(m')
    ensures ToFinalize(m, m')
  {
    hide SweepInv, KeepsColors, Orderly, ClosedSet, NoMoreThan, Separated, Least, Base, NoneOf, Flip, StrongWithin, Progress, Entered;
    EnteredStrings(m, m1.st, strong);
    SweepParts(m2);
    forall r | r in m'.tobefnz ensures r in m'.st.color && !m'.st.color[r].White? {
      StillMarked(m2, m', s, r);
    }
    forall b: set<Ref> | ClosedSet(m.st, Base(m), b) ensures NoMoreThan(m.st.heap, strong, b) {
      WithinLeast(m.st, Base(m), strong, b);
    }
  }

  lemma SweepParts(m: Mach)
    requires SweepInv(m, AllGc, 0)
    ensures Partition(m)
  {}

  lemma EnteredStrings(m: Mach, s: St, strong: Colors)
    requires StrongWithin(s, strong) && Progress(Entered(m).st, s)
    ensures NoMoreThan(m.st.heap, strong, Least(m.st, Base(m)))
  {
    TrimStrings(m.st.heap, s.heap);
    hide Trim, IsStr, Least;
  }

  lemma WithinLeast(s: St, base: set<Ref>, c: Colors, b: set<Ref>)
    requires NoMoreThan(s.heap, c, Least(s, base)) && ClosedSet(s, base, b)
    ensures NoMoreThan(s.heap, c, b)
  {
    forall r | r in c && !c[r].White? && !IsStr(s.heap, Obj(r)) ensures r in b {
      assert r in Least(s, base) && Forced(s, base, r);
    }
  }

  // luaC_fullgc in a marking phase: everything is swept back to white. The current
  // white has not changed, so nothing is dead.
  method AbandonMarking(g: GlobalState)
    requires KeepInvariant(g.gcstate) && Inv(Snap(g))
    modifies g`heap, g`upv, g`color, g`loc, g`bound, g`stuck, g`allgc, g`finobj, g`tobefnz, g`gcstate, g`sweepgc
    ensures g.gcstate == SwpAllGc && Sweeping(old(Snap(g)), Snap(g)) && g.heap.Keys == old(g.heap.Keys)
    ensures Inv(Snap(g))
  {
    hide Inv, MarkInv, Sweeping, SweepInv, Sound, Orderly;
    ghost var m := Snap(g);
    AbandonInv(m);
    EnterSweep(g);
    StepSound(m, Snap(g));
    AbandonKeys(m, Snap(g));
  }

  lemma AbandonInv(m: Mach)
    requires Inv(m) && KeepInvariant(m.phase)
    ensures SweepInv(m, AllGc, 0) && Gone(m.st) == Missing(m.st.heap) && Sound(m.st)
  {
    hide HeapWF, Exist, Sound, BlackInv, GrayInv, BoundClosed, MarkedWithin, FixedOk, StuckOk, StuckPlaces, Lists, TwupsOk, TwupsLive, NoDead, LocsOk, RootsLive, Partition;
    MarkSound(m.st);
    AbandonTwups(m.st);
    AbandonKeysOk(m.st);
  }

  lemma AbandonKeysOk(s: St)
    requires MarkInv(s, {})
    ensures s.color.Keys == s.heap.Keys
  {}

  lemma AbandonTwups(s: St)
    requires MarkInv(s, {}) && !s.inside && Gone(s) == Missing(s.heap)
    ensures TwupsLive(s)
  {
    hide HeapWF, Exist, Lists, LocsOk, NoDead, FixedOk, StuckOk, StuckPlaces, BlackInv, GrayInv, BoundClosed, MarkedWithin;
  }

  lemma AbandonKeys(m: Mach, m': Mach)
    requires Gone(m.st) == Missing(m.st.heap) && Sweeping(m, m')
    ensures m'.st.heap.Keys == m.st.heap.Keys
  {
    forall r ensures r in m'.st.heap <==> r in m.st.heap {
      assert r in Gone(m'.st) <==> r in Missing(m.st.heap);
    }
  }
}
