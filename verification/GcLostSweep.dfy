// A run in which an object keeps the mark of a cycle whose sweep has missed it: in the next
// cycle what it leads to is collected, although the object can be reached.

module GcLostSweep {
  import opened Common
  import opened GcHeap
  import opened GcInvariants
  import opened GcState
  import opened GcSteps
  import opened GcMark
  import opened GcConverge
  import opened GcAtomic
  import opened GcMachine
  import opened GcSweep
  import opened GcCycle
  import opened GcFinalize
  import opened GcStore
  import opened GcMutator
  import opened GcObjects
  import opened GcEffects
  import opened GcRun
  import opened GcFindings

  // The main thread (0), and two userdata (1, 2); the first one holds a table (3).
  function CrewHeap(): Heap {
    map[0 := Thread([], 0, []), 1 := Udata(None, Obj(3)), 2 := Udata(None, Nil), 3 := Table(None, Strong, [], [])]
  }

  ghost predicate Crew(m: Mach, registry: Value, finobj: seq<Ref>, tobefnz: seq<Ref>) {
    && m.mainthread == m.running == 0 && m.registry == registry && m.mt == []
    && m.finobj == finobj && m.tobefnz == tobefnz && m.st.upv == map[] && m.st.fixed == []
    && m.st.heap == CrewHeap()
  }

  // ------------------------------------------------------------------ up to the cycle

  lemma PauseNames(m: Mach, r: Ref)
    requires Inv(m) && m.phase == Pause && r in m.st.heap && !m.st.heap[r].Str?
    ensures Names(m, r) && Usable(m.st, Obj(r))
  {
    hide Inv;
    RestGone(m);
  }

  method NewUdata(g: GlobalState, r: Ref)
    requires r !in g.heap && Inv(Snap(g))
    modifies g
    ensures Snap(g) == BornIn(old(Snap(g)), r, Udata(None, Nil)) && Inv(Snap(g))
  {
    hide Inv;
    BlankNewborn(g.View(), r, Udata(None, Nil));
    NewObject(g, r, Udata(None, Nil));
  }

  ghost predicate Blanks(m: Mach) {
    && m.mainthread == m.running == 0 && m.registry == Nil && m.mt == []
    && m.finobj == [] && m.tobefnz == [] && m.st.upv == map[] && m.st.fixed == [] && m.st.stuck == {} && m.allgc == [3, 2, 1]
    && m.st.heap == map[0 := Thread([], 0, []), 1 := Udata(None, Nil), 2 := Udata(None, Nil), 3 := Table(None, Strong, [], [])]
  }

  lemma BlankTable()
    ensures Blank(Table(None, Strong, [], []))
  {}

  method Hire() returns (g: GlobalState)
    ensures fresh(g) && g.gcstate == Pause && Blanks(Snap(g)) && Inv(Snap(g))
  {
    hide Inv, Names, Gone, Blank;
    g := NewState(0, 0, 0);
    assert g.mt == [] && g.heap[0].stack == [] && g.heap[0] == Thread([], 0, []);
    assert Blank(Table(None, Strong, [], [])) by { BlankTable(); }
    NewUdata(g, 1);
    NewUdata(g, 2);
    NewBlank(g, 3, Table(None, Strong, [], []));
  }

  method Equip() returns (g: GlobalState)
    ensures fresh(g) && g.gcstate == Pause && Crew(Snap(g), Nil, [], []) && g.stuck == {} && g.allgc == [3, 2, 1] && Inv(Snap(g))
  {
    hide Inv, Names, Gone;
    g := Hire();
    PauseNames(Snap(g), 1);
    PauseNames(Snap(g), 3);
    SetUserValue(g, 1, Obj(3));
  }

  method RegisterOne(g: GlobalState, o: Ref, ghost finobj: seq<Ref>)
    requires g.gcstate == Pause && Crew(Snap(g), Nil, finobj, []) && o in {1, 2} && o in g.allgc && Inv(Snap(g))
    modifies g
    ensures g.gcstate == Pause && Crew(Snap(g), Nil, [o] + finobj, []) && g.stuck == old(g.stuck)
    ensures (forall r :: r in old(g.allgc) && r != o ==> r in g.allgc) && Inv(Snap(g))
  {
    hide Inv, Names, Gone;
    PauseNames(Snap(g), o);
    CheckFinalizer(g, o);
  }

  method Register() returns (g: GlobalState)
    ensures fresh(g) && g.gcstate == Pause && Crew(Snap(g), Nil, [2, 1], []) && g.stuck == {} && Inv(Snap(g))
  {
    hide Inv, Crew;
    g := Equip();
    RegisterOne(g, 1, []);
    RegisterOne(g, 2, [1] + []);
    assert [2] + ([1] + []) == [2, 1];
  }

  // ------------------------------------------------------------------ the first cycle

  lemma CrewTrim(m: Mach, m': Mach, registry: Value, finobj: seq<Ref>, tobefnz: seq<Ref>)
    requires Crew(m, registry, finobj, tobefnz) && Waits(m, m') && m'.st.fixed == m.st.fixed
    ensures Crew(m', registry, finobj, tobefnz)
  {
    CrewHeapTrim(m'.st.heap);
    assert m'.st.upv == map[];
  }

  lemma CrewHeapTrim(h: Heap)
    requires Trim(CrewHeap(), h)
    ensures h == CrewHeap()
  {
    assert forall r :: r in CrewHeap() ==> ObjTrim(CrewHeap()[r], h[r]);
    assert h[0] == Thread([], 0, []) && h[3] == Table(None, Strong, [], []);
  }

  lemma AllWhite(m: Mach)
    requires Inv(m) && m.phase == Pause && m.st.fixed == []
    ensures forall r :: r in m.st.heap && r !in m.st.stuck ==> r in m.st.color && m.st.color[r] == White(m.st.white)
  {
    hide Inv, Partition, Swept, RestOk, Sound;
    RestFacts(m);
    RestKeys(m.st);
    RestIsWhite(m);
  }

  lemma RestKeys(s: St)
    requires RestOk(s)
    ensures s.color.Keys == s.heap.Keys
  {}

  // Only objects of 'keep' are marked when the atomic step comes.
  method ToAtomic(g: GlobalState, ghost registry: Value, ghost finobj: seq<Ref>, ghost keep: set<Ref>)
    requires g.gcstate == Pause && Crew(Snap(g), registry, finobj, []) && FewRoots(Snap(g)) && Inv(Snap(g))
    requires ClosedSet(Started(Snap(g)), {}, keep)
    modifies g
    ensures g.gcstate == Atomic && Crew(Snap(g), registry, finobj, []) && g.stuck == old(g.stuck)
    ensures ClosedSet(g.View(), {}, keep) && Inv(Snap(g))
  {
    hide Inv, Waits, Crew, ClosedSet, FewRoots, Started, Gone;
    ghost var m := Snap(g);
    PauseStep(g);
    ghost var m1 := Snap(g);
    StartedCrew(m, m1, registry, finobj);
    PropagateToAtomic(g, keep);
    WaitsFixed(m1, Snap(g));
    CrewTrim(m1, Snap(g), registry, finobj, []);
  }

  lemma WaitsFixed(m: Mach, m': Mach)
    requires Waits(m, m')
    ensures m'.st.fixed == m.st.fixed && m'.st.stuck == m.st.stuck
  {}

  lemma StartedCrew(m: Mach, m': Mach, registry: Value, finobj: seq<Ref>)
    requires Crew(m, registry, finobj, []) && m'.st == Started(m) && m' == m.(st := m'.st, phase := m'.phase, grayagain := m'.grayagain)
    ensures Crew(m', registry, finobj, []) && m'.st.stuck == m.st.stuck
  {}

  lemma CrewStarts(m: Mach)
    requires Crew(m, Nil, [2, 1], []) && m.st.stuck == {} && Inv(m) && m.phase == Pause
    ensures FewRoots(m) && ClosedSet(Started(m), {}, {0})
  {
    AllWhite(m);
    RestFacts(m);
    RestKeys(m.st);
    hide Inv, RestOk, Swept, Partition, Sound;
  }

  method FirstCycle() returns (g: GlobalState)
    ensures fresh(g) && g.gcstate == Atomic && Crew(Snap(g), Nil, [2, 1], []) && g.stuck == {} && ClosedSet(g.View(), {}, {0})
    ensures Inv(Snap(g))
  {
    hide Inv, Crew, ClosedSet, FewRoots, Started;
    g := Register();
    CrewStarts(Snap(g));
    ToAtomic(g, Nil, [2, 1], {0});
  }

  // Both userdata are to be finalized.
  lemma BothSelected(c: Colors)
    requires IsWhite(c, 1) && IsWhite(c, 2)
    ensures Select(c, [2, 1], true) == [2, 1] && Select(c, [2, 1], false) == []
  {
    assert [2, 1][..1] == [2] && [2][..0] == [];
    assert Select(c, [2], true) == [2] && Select(c, [2], false) == [];
  }

  lemma CrewBase(m: Mach, finobj: seq<Ref>)
    requires Crew(m, Nil, finobj, []) && ClosedSet(m.st, {}, {0})
    ensures ClosedSet(m.st, Base(m), {0})
  {}

  lemma CrewSeparated(m: Mach, m': Mach)
    requires Crew(m, Nil, [2, 1], []) && ClosedSet(m.st, {}, {0}) && ToFinalize(m, m')
    ensures m'.finobj == [] && m'.tobefnz == [2, 1] && 1 in m'.st.color && !m'.st.color[1].White?
  {
    CrewBase(m, [2, 1]);
    var strong: Colors :|
      && Separated(strong, m.finobj, m.tobefnz, m'.finobj, m'.tobefnz) && strong.Keys == m.st.heap.Keys
      && forall b: set<Ref> :: ClosedSet(m.st, Base(m), b) ==> MarkedWithin(strong, b);
    assert MarkedWithin(strong, {0});
    BothSelected(strong);
  }

  lemma CrewSound(m: Mach, s: St, m': Mach, b: set<Ref>)
    requires Crew(m, Nil, [2, 1], []) && m.st.stuck == {} && Collection(m, s, m', b)
    ensures NoneOverlooked(s) && s.heap == CrewHeap()
  {
    hide Exact, LosesOnly, Emptied, Finished, TablesClear, FinalizableMarked, ListedKeeps, FlagsServed, SameUpvals, ModesKept;
    CrewHeapTrim(s.heap);
  }

  // What is being finalized is alive, and what it leads to.
  lemma Lives(m: Mach)
    requires Inv(m) && (m.tobefnz == [2, 1] || m.tobefnz == [1] || m.registry == Obj(1))
    requires 1 in m.st.heap && m.st.heap[1] == Udata(None, Obj(3)) && m.mainthread == 0
    ensures 0 !in Gone(m.st) && 1 !in Gone(m.st) && 3 !in Gone(m.st)
    ensures m.tobefnz == [2, 1] ==> 2 !in Gone(m.st)
  {
    InvSound(m);
    hide Inv;
    assert m.tobefnz == [2, 1] ==> m.tobefnz[0] == 2 && m.tobefnz[1] == 1;
    assert m.tobefnz == [1] ==> m.tobefnz[0] == 1;
    assert 1 !in Gone(m.st);
    assert Clear(m.st.heap, m.st.upv, Gone(m.st), m.st.heap[1]);
  }

  // Everything has survived.
  lemma CrewSurvives(m: Mach, s: St, m': Mach, b: set<Ref>)
    requires Crew(m, Nil, [2, 1], []) && m.st.stuck == {} && Collection(m, s, m', b) && SameRoots(m, m') && Inv(m')
    requires m'.finobj == [] && m'.tobefnz == [2, 1] && s.heap == CrewHeap()
    ensures Crew(m', Nil, [], [2, 1]) && m'.st.stuck == {}
  {
    hide Inv, Collected, OnlyForced;
    FinalizedAlive(m');
    assert m'.st.heap[1] == s.heap[1];
    Lives(m');
    forall r | r in s.heap ensures r in m'.st.heap && m'.st.heap[r] == s.heap[r] { assert r !in Gone(m'.st); }
    assert m'.st.upv == map[];
  }

  lemma FinalizedAlive(m: Mach)
    requires Inv(m) && m.tobefnz == [2, 1]
    ensures 1 !in Gone(m.st)
  {
    InvSound(m);
    hide Inv;
    assert m.tobefnz[1] == 1;
  }

  method Finalizing() returns (g: GlobalState)
    ensures fresh(g) && g.gcstate == SwpAllGc && Crew(Snap(g), Nil, [], [2, 1]) && g.stuck == {}
    ensures 1 in g.color && !g.color[1].White? && Inv(Snap(g))
  {
    hide Inv, Orderly, Collection, ToFinalize, NoneOverlooked, Crew, ClosedSet;
    g := FirstCycle();
    ghost var m := Snap(g);
    ghost var b, s;
    b, s := AtomicStep(g);
    CrewSeparated(m, Snap(g));
    CrewSound(m, s, Snap(g), b);
    CrewSurvives(m, s, Snap(g), b);
  }

  // ------------------------------------------------------------------------ the sweep

  // The sweep goes on; no object that a list other than the swept one holds is touched.
  ghost predicate Midway(m: Mach, tobefnz: seq<Ref>) {
    && Crew(m, Nil, [], tobefnz) && m.st.stuck == {} && 1 in m.st.color && !m.st.color[1].White?
  }

  lemma CrewSweeps(m: Mach, m': Mach, count: nat)
    requires Midway(m, [2, 1]) && Sweeping(m, m') && SweptBy(m, m', count) && Inv(m) && Inv(m')
    requires m.phase == SwpAllGc || m.phase == SwpFinObj || (m.phase == SwpToBeFnz && m.sweepgc == Some(0) && count == 1)
    ensures Midway(m', [2, 1])
  {
    Lives(m);
    RestLists(m);
    RestLists(m');
    hide Inv, Sweeps;
    CrewAlive(m, m');
    SweptColors(m, m', count);
  }

  lemma RestLists(m: Mach)
    requires Inv(m)
    ensures Partition(m) && (!KeepInvariant(m.phase) ==> m.st.color.Keys == m.st.heap.Keys)
  {}

  lemma CrewAlive(m: Mach, m': Mach)
    requires Midway(m, [2, 1]) && Sweeping(m, m') && 0 !in Gone(m.st) && 1 !in Gone(m.st) && 2 !in Gone(m.st) && 3 !in Gone(m.st)
    ensures m'.st.heap == CrewHeap() && m'.st.upv == map[] && m'.st.stuck == {} && m'.st.fixed == []
  {
    forall r | r in m.st.heap ensures r in m'.st.heap { assert r !in Gone(m'.st); }
    assert m'.st.upv == map[];
  }

  lemma SweptColors(m: Mach, m': Mach, count: nat)
    requires Midway(m, [2, 1]) && SweptBy(m, m', count) && Partition(m) && m'.st.color.Keys == m'.st.heap.Keys && 1 in m'.st.heap
    requires m.phase == SwpAllGc || m.phase == SwpFinObj || (m.phase == SwpToBeFnz && m.sweepgc == Some(0) && count == 1)
    ensures m'.finobj == [] && m'.tobefnz == [2, 1] && 1 in m'.st.color && !m'.st.color[1].White?
  {
    Unique(m, ToBeFnz, 1);
    hide Partition;
    assert m.phase == SwpToBeFnz ==> [2, 1][0..1] == [2];
  }

  method SweepBy(g: GlobalState, count: nat)
    requires Sweeps(g.gcstate) && Inv(Snap(g))
    modifies g
    ensures SameRoots(old(Snap(g)), Snap(g)) && Sweeping(old(Snap(g)), Snap(g)) && SweptBy(old(Snap(g)), Snap(g), count)
    ensures Inv(Snap(g))
  {
    hide Inv, Orderly, Sweeping, Sound, SweptBy;
    ghost var m := Snap(g);
    InvRest(m);
    SweepStep(g, count);
    SweptInv(m, Snap(g));
    SweepingRoots(m, Snap(g));
  }

  // The first of the two has been swept.
  method ToPosition() returns (g: GlobalState)
    ensures fresh(g) && g.gcstate == SwpToBeFnz && g.sweepgc == Some(1) && Midway(Snap(g), [2, 1]) && Inv(Snap(g))
  {
    hide Inv, Sweeping, SweptLists, Crew;
    g := Finalizing();
    ghost var m := Snap(g);
    SweepBy(g, |g.allgc|);
    CrewSweeps(m, Snap(g), |m.allgc|);
    ghost var m1 := Snap(g);
    CrewLists(m1);
    SweepBy(g, 0);
    CrewSweeps(m1, Snap(g), 0);
    ghost var m2 := Snap(g);
    CrewLists(m2);
    SweepBy(g, 1);
    CrewSweeps(m2, Snap(g), 1);
    OneSwept(m2, Snap(g));
  }

  lemma CrewLists(m: Mach)
    requires Midway(m, [2, 1])
    ensures m.finobj == [] && m.tobefnz == [2, 1]
  {}

  lemma OneSwept(m: Mach, m': Mach)
    requires m.phase == SwpToBeFnz && m.sweepgc == Some(0) && m.tobefnz == [2, 1] && SweptBy(m, m', 1)
    ensures m'.phase == SwpToBeFnz && m'.sweepgc == Some(1)
  {}

  // ----------------------------------------------------------- the finalizers are called

  // The second one is stuck.
  method LosePosition() returns (g: GlobalState)
    ensures fresh(g) && g.gcstate == SwpToBeFnz && g.sweepgc == None && Crew(Snap(g), Nil, [], [1]) && g.stuck == {1} && Inv(Snap(g))
  {
    hide Inv;
    g := ToPosition();
    ghost var m := Snap(g);
    MissedOne(m);
    var o := Udata2Finalize(g);
    assert [2, 1][1..] == [1];
  }

  lemma MissedOne(m: Mach)
    requires m.phase == SwpToBeFnz && m.sweepgc == Some(1) && m.tobefnz == [2, 1] && 1 in m.st.color && !m.st.color[1].White?
    requires m.st.stuck == {}
    ensures LosesPosition(m) && Missed(m) == {1}
  {
    assert m.tobefnz[1..] == [1];
    assert 1 in m.tobefnz[1..];
  }

  // From here on the other userdata may be freed.
  ghost predicate Held(m: Mach, registry: Value, tobefnz: seq<Ref>) {
    && m.mainthread == m.running == 0 && m.registry == registry && m.mt == []
    && m.finobj == [] && m.tobefnz == tobefnz && m.st.upv == map[] && m.st.fixed == [] && m.st.stuck == {1}
    && {0, 1, 3} <= m.st.heap.Keys <= CrewHeap().Keys && forall r :: r in m.st.heap ==> m.st.heap[r] == CrewHeap()[r]
  }

  lemma HeldSweeps(m: Mach, m': Mach)
    requires Held(m, Nil, [1]) && Sweeping(m, m') && Inv(m) && m'.finobj == m.finobj && m'.tobefnz == m.tobefnz && m'.st.stuck == m.st.stuck
    ensures Held(m', Nil, [1])
  {
    hide Inv;
    Lives(m);
    assert 0 !in Gone(m'.st) && 1 !in Gone(m'.st) && 3 !in Gone(m'.st);
    assert m'.st.upv == map[];
  }

  // The sweep is over.
  method EndSweep() returns (g: GlobalState)
    ensures fresh(g) && g.gcstate == CallFin && Held(Snap(g), Nil, [1]) && Inv(Snap(g))
  {
    hide Inv, Orderly, Sweeping, Crew, Held, Sound;
    g := LosePosition();
    ghost var m := Snap(g);
    CrewIsHeld(m);
    SweepBy(g, 0);
    HeldSweeps(m, Snap(g));
    EndHeld(g);
  }

  method EndHeld(g: GlobalState)
    requires g.gcstate == SwpEnd && Held(Snap(g), Nil, [1]) && Inv(Snap(g))
    modifies g
    ensures g.gcstate == CallFin && Held(Snap(g), Nil, [1]) && Inv(Snap(g))
  {
    hide Inv, Orderly, Sweeping, Held, Sound;
    ghost var m := Snap(g);
    InvRest(m);
    HeldMain(m);
    FinishSweep(g);
    SweptInv(m, Snap(g));
    SweepingRoots(m, Snap(g));
    HeldSweeps(m, Snap(g));
  }

  lemma CrewIsHeld(m: Mach)
    requires Crew(m, Nil, [], [1]) && m.st.stuck == {1}
    ensures Held(m, Nil, [1])
  {}

  lemma HeldMain(m: Mach)
    requires Held(m, Nil, [1])
    ensures m.mainthread == 0 && m.st.stuck == {1} && m.finobj == [] && m.tobefnz == [1]
  {}

  lemma HeldPops(m: Mach)
    requires Held(m, Nil, [1]) && m.phase == CallFin && m.tobefnz != []
    ensures Held(Popped(m), Nil, []) && Gone(Popped(m).st) == Gone(m.st)
  {
    assert [1][1..] == [];
  }

  method CallFinalizer() returns (g: GlobalState)
    ensures fresh(g) && g.gcstate == CallFin && Held(Snap(g), Nil, []) && 1 !in Gone(g.View()) && Inv(Snap(g))
  {
    hide Inv, Held, Gone, Popped;
    g := EndSweep();
    ghost var m := Snap(g);
    HeldMain(m);
    HeldObjects(m, Nil, [1]);
    Lives(m);
    HeldPops(m);
    var o := Udata2Finalize(g);
    PoppedPhase(m);
  }

  lemma HeldObjects(m: Mach, registry: Value, tobefnz: seq<Ref>)
    requires Held(m, registry, tobefnz)
    ensures 1 in m.st.heap && m.st.heap[1] == Udata(None, Obj(3))
  {}

  lemma PoppedPhase(m: Mach)
    requires m.tobefnz != []
    ensures Popped(m).phase == m.phase
  {}

  // The finalizer of the object that is stuck stores it in the registry.
  method Store() returns (g: GlobalState)
    ensures fresh(g) && g.gcstate == CallFin && Held(Snap(g), Obj(1), []) && g.tobefnz == [] && Inv(Snap(g))
  {
    hide Inv, Gone, Held;
    g := CallFinalizer();
    ghost var m := Snap(g);
    SetRegistry(g, Obj(1));
    HeldMore(m);
  }

  method Revive() returns (g: GlobalState)
    ensures fresh(g) && g.gcstate == Pause && Held(Snap(g), Obj(1), []) && Inv(Snap(g))
  {
    hide Inv, Held;
    g := Store();
    ghost var m := Snap(g);
    var _ := CallFinStep(g);
    HeldPause(m, Snap(g));
  }

  lemma HeldMore(m: Mach)
    requires Held(m, Nil, [])
    ensures Held(m.(registry := Obj(1)), Obj(1), []) && m.tobefnz == []
  {}

  lemma HeldPause(m: Mach, m': Mach)
    requires Held(m, Obj(1), []) && m' == m.(phase := Pause, allgc := m'.allgc, sweepgc := m'.sweepgc)
    ensures Held(m', Obj(1), [])
  {}

  // -------------------------------------------------------------------- the next cycle

  lemma HeldStarts(m: Mach)
    requires Held(m, Obj(1), []) && Inv(m) && m.phase == Pause
    ensures FewRoots(m) && Started(m) == Grayed(Reset(m.st), 0) && ClosedSet(Started(m), {}, {0, 1})
  {
    AllWhite(m);
    RestFacts(m);
    RestKeys(m.st);
    StuckMarked(m.st);
    hide Inv, RestOk, Swept, Partition, Sound;
  }

  lemma StuckMarked(s: St)
    requires RestOk(s)
    ensures forall r :: r in s.stuck ==> !IsWhite(s.color, r)
  {}

  lemma HeldWaits(m: Mach, m': Mach)
    requires Held(m, Obj(1), []) && Waits(m, m')
    ensures Held(m', Obj(1), [])
  {
    assert forall r :: r in m.st.heap ==> ObjTrim(m.st.heap[r], m'.st.heap[r]);
    assert m'.st.heap[0] == Thread([], 0, []);
    assert m'.st.upv == map[];
  }

  lemma HeldStarted(m: Mach, m': Mach)
    requires Held(m, Obj(1), []) && m'.st == Started(m) && m' == m.(st := m'.st, phase := m'.phase, grayagain := m'.grayagain)
    ensures Held(m', Obj(1), [])
  {}

  method NextCycle() returns (g: GlobalState)
    ensures fresh(g) && g.gcstate == Atomic && Held(Snap(g), Obj(1), []) && ClosedSet(g.View(), {}, {0, 1}) && Inv(Snap(g))
  {
    hide Inv, Waits, Held, ClosedSet, FewRoots, Started, Gone;
    g := Revive();
    ghost var m := Snap(g);
    HeldStarts(m);
    PauseStep(g);
    ghost var m1 := Snap(g);
    HeldStarted(m, m1);
    PropagateToAtomic(g, {0, 1});
    HeldWaits(m1, Snap(g));
  }

  lemma HeldBase(m: Mach)
    requires Held(m, Obj(1), []) && ClosedSet(m.st, {}, {0, 1})
    ensures ClosedSet(m.st, WideBase(m), {0, 1})
  {}

  // The table that the userdata in the registry holds is collected.
  method LostSweepRun() returns (g: GlobalState)
    ensures fresh(g) && Dangles(Snap(g), [1, 3])
    ensures 1 in g.heap && g.heap[1] == Udata(None, Obj(3))
    ensures Orderly(Snap(g)) && !Inv(Snap(g))
  {
    hide Inv, Orderly, Collection, ToFinalize, NoneOverlooked, Held, ClosedSet, Gone, Dangles;
    g := NextCycle();
    ghost var m := Snap(g);
    HeldBase(m);
    ghost var b, s;
    b, s := AtomicStep(g);
    HeldAfter(m, s, Snap(g), b);
    DanglesUnsound(Snap(g), [1, 3]);
  }

  lemma HeldAfter(m: Mach, s: St, m': Mach, b: set<Ref>)
    requires Held(m, Obj(1), []) && ClosedSet(m.st, WideBase(m), {0, 1}) && Collection(m, s, m', b) && SameRoots(m, m') && Orderly(m')
    ensures 1 in m'.st.heap && m'.st.heap[1] == Udata(None, Obj(3)) && Dangles(m', [1, 3])
  {
    hide Orderly, ClosedSet, Collection, WideBase, RootsLive;
    CollectionDrops(m, s, m', b, {0, 1}, 3);
    OrderlyRoots(m');
    assert 1 !in Gone(m'.st);
    CollectionLasts(m, s, m', b, 1);
    DanglesTo(m');
  }

  lemma DanglesTo(m: Mach)
    requires m.registry == Obj(1) && 1 in m.st.heap && m.st.heap[1] == Udata(None, Obj(3)) && 3 in Gone(m.st)
    ensures Dangles(m, [1, 3])
  {
    assert Edge(m.st, [1, 3][0], [1, 3][0 + 1]);
    assert !RootsClear(iset{1}, m.running, m.registry, m.mt);
  }
}
