// Runs of the program and the collector, from the initial state on, that end with a
// reference from what can be reached to a dead object.

module GcFindings {
  import opened Common
  import opened GcHeap
  import opened GcInvariants
  import opened GcState
  import opened GcSteps
  import opened GcMark
  import opened GcConverge
  import opened GcAtomic
  import opened GcMachine
  import opened GcCycle
  import opened GcFinalize
  import opened GcStore
  import opened GcMutator
  import opened GcObjects
  import opened GcEffects
  import opened GcRun

  // A path from a root to an object that is dead, or has been freed.
  ghost predicate Dangles(m: Mach, p: seq<Ref>) {
    Path(m.st, p) && IsRoot(m, p[0]) && p[|p| - 1] in Gone(m.st)
  }

  lemma DanglesUnsound(m: Mach, p: seq<Ref>)
    requires Dangles(m, p)
    ensures !Inv(m)
  {
    if Inv(m) {
      ReachableAlive(m, p);
      assert false;
    }
  }

  // ------------------------------------------------------------- up to the atomic step

  // What propagation keeps of a state with few objects.
  ghost predicate Waits(m: Mach, m': Mach) {
    && SameRoots(m, m') && m'.finobj == m.finobj && m'.tobefnz == m.tobefnz && m'.st.stuck == m.st.stuck
    && Trim(m.st.heap, m'.st.heap) && m'.st.upv.Keys == m.st.upv.Keys && Suffix(m.st.allweak, m'.st.allweak)
    && m'.st.white == m.st.white && m'.st.fixed == m.st.fixed
  }

  lemma ProgressWaits(m0: Mach, m: Mach, m': Mach)
    requires Waits(m0, m) && Progress(m.st, m'.st) && SameRoots(m, m') && m'.finobj == m.finobj && m'.tobefnz == m.tobefnz
    ensures Waits(m0, m')
  {
    TrimTransitive(m0.st.heap, m.st.heap, m'.st.heap);
    assert m'.st.allweak[|m'.st.allweak| - |m0.st.allweak|..] == m.st.allweak[|m.st.allweak| - |m0.st.allweak|..];
  }

  // Propagates until the atomic step is next. What a closed set does not contain stays
  // unmarked.
  method PropagateToAtomic(g: GlobalState, ghost keep: set<Ref>)
    requires KeepInvariant(g.gcstate) && Inv(Snap(g)) && ClosedSet(g.View(), {}, keep)
    modifies g
    ensures g.gcstate == Atomic && Waits(old(Snap(g)), Snap(g)) && ClosedSet(g.View(), {}, keep)
    ensures Inv(Snap(g))
  {
    hide Inv, ClosedSet, Waits;
    ghost var m0 := Snap(g);
    WaitsReflexive(m0);
    while g.gcstate == Propagate
      invariant KeepInvariant(g.gcstate) && Waits(m0, Snap(g)) && ClosedSet(g.View(), {}, keep) && Inv(Snap(g))
      decreases WhiteSet(g.color), |g.gray|
    {
      ghost var m := Snap(g);
      PropagateOnward(g, keep);
      WaitsTransitive(m0, m, Snap(g));
    }
  }

  method PropagateOnward(g: GlobalState, ghost keep: set<Ref>)
    requires g.gcstate == Propagate && Inv(Snap(g)) && ClosedSet(g.View(), {}, keep)
    modifies g
    ensures KeepInvariant(g.gcstate) && Waits(old(Snap(g)), Snap(g)) && ClosedSet(g.View(), {}, keep)
    ensures WhiteSet(g.color) < old(WhiteSet(g.color)) || (WhiteSet(g.color) == old(WhiteSet(g.color)) && |g.gray| < old(|g.gray|))
    ensures Inv(Snap(g))
  {
    hide Inv, ClosedSet, OnlyForced, Progress, MarkInv, Waits;
    ghost var m := Snap(g);
    PropagateStep(g);
    WaitsReflexive(m);
    ProgressWaits(m, m, Snap(g));
    ProgressWhites(m.st, g.View());
    WhiteSetMeasure(m.st.color, g.color);
    MarkFacts(m);
    ForcedWithin(m.st, g.View(), keep);
    StillClosed(m.st, g.View(), keep);
  }

  lemma WaitsTransitive(m: Mach, m': Mach, m'': Mach)
    requires Waits(m, m') && Waits(m', m'')
    ensures Waits(m, m'')
  {
    TrimTransitive(m.st.heap, m'.st.heap, m''.st.heap);
    assert m''.st.allweak[|m''.st.allweak| - |m.st.allweak|..] == m'.st.allweak[|m'.st.allweak| - |m.st.allweak|..];
  }

  lemma WaitsReflexive(m: Mach)
    ensures Waits(m, m)
  {
    TrimReflexive(m.st.heap);
  }

  lemma ForcedWithin(s: St, s': St, keep: set<Ref>)
    requires OnlyForced(s, {}, s') && ClosedSet(s, {}, keep)
    ensures MarkedWithin(s'.color, keep)
  {}

  // A new object, with nothing in it.
  method NewBlank(g: GlobalState, r: Ref, o: Object)
    requires r !in g.heap && Blank(o) && Inv(Snap(g))
    modifies g
    ensures Snap(g) == BornIn(old(Snap(g)), r, o) && (!o.Str? ==> Names(Snap(g), r)) && Inv(Snap(g))
  {
    hide Inv;
    BlankNewborn(g.View(), r, o);
    NewObject(g, r, o);
  }

  // -------------------------------------------- a collection table that is all-weak

  // The main thread (0), and an object (1).
  ghost predicate Setting(m: Mach, registry: Value, o: Object) {
    && m.mainthread == m.running == 0 && m.registry == registry && m.mt == []
    && m.finobj == m.tobefnz == [] && m.st.upv == map[] && m.st.stuck == {} && !m.st.white
    && m.st.heap == map[0 := Thread([], 0, []), 1 := o]
  }

  ghost predicate TwoWhites(c: Colors) {
    c == map[0 := White(false), 1 := White(false)]
  }

  lemma SettingNames(m: Mach, registry: Value, o: Object)
    requires Setting(m, registry, o) && TwoWhites(m.st.color) && !o.Str?
    ensures Names(m, 1) && Usable(m.st, Obj(1)) && m.st.heap[1] == o
  {}

  method Start() returns (g: GlobalState)
    ensures fresh(g) && g.gcstate == Pause && TwoWhites(g.color) && Setting(Snap(g), Nil, Table(None, Strong, [], []))
    ensures Inv(Snap(g))
  {
    hide Inv;
    g := NewState(0, 0, 0);
    assert g.mt == [] && g.heap[0].stack == [] && g.heap[0] == Thread([], 0, []);
    NewBlank(g, 1, Table(None, Strong, [], []));
  }

  // ... and makes it an all-weak table in the registry.
  method Prepare(nodes: seq<Node>) returns (g: GlobalState)
    requires forall i :: 0 <= i < |nodes| ==> !nodes[i].dead && !nodes[i].key.Obj? && nodes[i].val.Nil?
    ensures fresh(g) && g.gcstate == Pause && TwoWhites(g.color) && Setting(Snap(g), Obj(1), Table(None, AllWeak, [], nodes))
    ensures Inv(Snap(g))
  {
    hide Inv, Names, Gone, TwoWhites;
    g := Start();
    SettingNames(Snap(g), Nil, Table(None, Strong, [], []));
    SetRegistry(g, Obj(1));
    SettingNames(Snap(g), Obj(1), Table(None, Strong, [], []));
    Rearrange(g, 1, [], nodes);
    SettingNames(Snap(g), Obj(1), Table(None, Strong, [], nodes));
    SetMode(g, 1, AllWeak);
  }

  lemma SettingTrim(m: Mach, m': Mach, nodes: seq<Node>)
    requires Setting(m, Obj(1), Table(None, AllWeak, [], nodes)) && Waits(m, m') && forall i :: 0 <= i < |nodes| ==> nodes[i].val.Nil?
    ensures Setting(m', Obj(1), Table(None, AllWeak, [], nodes))
  {
    var h, h' := m.st.heap, m'.st.heap;
    assert ObjTrim(h[0], h'[0]) && ObjTrim(h[1], h'[1]);
    assert h'[0] == Thread([], 0, []) && h'[1].nodes == nodes;
    assert h'[1] == Table(None, AllWeak, [], nodes);
    assert m'.st.upv == map[];
    assert h' == h;
  }

  lemma SettingClosed(m: Mach, nodes: seq<Node>)
    requires Setting(m, Obj(1), Table(None, AllWeak, [], nodes)) && m.st.color.Keys == m.st.heap.Keys
    requires forall i :: 0 <= i < |nodes| ==> nodes[i].val.Nil?
    ensures ClosedSet(m.st, {}, {0, 1})
  {}

  lemma MarkedColors(m: Mach)
    requires Inv(m) && KeepInvariant(m.phase)
    ensures m.st.color.Keys == m.st.heap.Keys
  {
    hide Inv;
    MarkFacts(m);
    BoundMarked(m.st);
  }

  // A cycle begins.
  method BeginCycle(nodes: seq<Node>) returns (g: GlobalState)
    requires forall i :: 0 <= i < |nodes| ==> !nodes[i].dead && !nodes[i].key.Obj? && nodes[i].val.Nil?
    ensures fresh(g) && g.gcstate == Propagate && g.gray == [1, 0] && Setting(Snap(g), Obj(1), Table(None, AllWeak, [], nodes))
    ensures Inv(Snap(g))
  {
    hide Inv, FewRoots, TwoWhites, Setting, Started, Gone;
    g := Prepare(nodes);
    ghost var m := Snap(g);
    PauseStep(g);
    StartedHere(m, Snap(g), nodes);
  }

  // ... and the table is visited.
  method VisitTable(nodes: seq<Node>) returns (g: GlobalState)
    requires forall i :: 0 <= i < |nodes| ==> !nodes[i].dead && !nodes[i].key.Obj? && nodes[i].val.Nil?
    ensures fresh(g) && KeepInvariant(g.gcstate) && 1 in g.allweak && Setting(Snap(g), Obj(1), Table(None, AllWeak, [], nodes))
    ensures Inv(Snap(g))
  {
    hide Inv, Waits, OnlyForced, Progress;
    g := BeginCycle(nodes);
    ghost var m := Snap(g);
    PropagateStep(g);
    WaitsReflexive(m);
    ProgressWaits(m, m, Snap(g));
    SettingTrim(m, Snap(g), nodes);
  }

  lemma StartedHere(m: Mach, m': Mach, nodes: seq<Node>)
    requires Setting(m, Obj(1), Table(None, AllWeak, [], nodes)) && TwoWhites(m.st.color)
    requires FewRoots(m) ==> m'.st == Started(m)
    requires m' == m.(st := m'.st, phase := m'.phase, grayagain := m'.grayagain)
    ensures Setting(m', Obj(1), Table(None, AllWeak, [], nodes)) && m'.st.gray == [1, 0]
  {
    assert FewRoots(m);
    assert Started(m) == Grayed(Grayed(Reset(m.st), 0), 1);
  }

  // The collector is about to run the atomic step; the table is in 'allweak'.
  method PrepareAtomic(nodes: seq<Node>) returns (g: GlobalState)
    requires forall i :: 0 <= i < |nodes| ==> !nodes[i].dead && !nodes[i].key.Obj? && nodes[i].val.Nil?
    ensures fresh(g) && g.gcstate == Atomic && 1 in g.allweak && Setting(Snap(g), Obj(1), Table(None, AllWeak, [], nodes))
    ensures g.color.Keys == g.heap.Keys && Inv(Snap(g))
  {
    hide Inv, ClosedSet, Waits, Setting;
    g := VisitTable(nodes);
    ghost var m := Snap(g);
    MarkedColors(m);
    SettingClosed(m, nodes);
    PropagateToAtomic(g, {0, 1});
    SettingTrim(m, Snap(g), nodes);
    SuffixKeeps(m, Snap(g), 1);
    MarkedColors(Snap(g));
  }

  lemma SuffixKeeps(m: Mach, m': Mach, r: Ref)
    requires Waits(m, m') && r in m.st.allweak
    ensures r in m'.st.allweak
  {
    var l, l' := m.st.allweak, m'.st.allweak;
    var i :| 0 <= i < |l| && l[i] == r;
    assert l'[|l'| - |l|..][i] == r;
  }

  // -------------------------------------------------------------------- a stale key

  // In either run: the table, and an object (2) that is white and that marking need not reach.
  ghost predicate Ready(m: Mach, o: Object, k: Object) {
    && m.mainthread == m.running == 0 && m.registry == Obj(1) && m.mt == []
    && m.finobj == m.tobefnz == [] && m.st.upv == map[]
    && m.st.heap == map[0 := Thread([], 0, []), 1 := o, 2 := k] && Blank(k) && IsWhite(m.st.color, 2)
  }

  lemma ReadyClosed(m: Mach, o: Object, k: Object)
    requires Ready(m, o, k) && m.st.color.Keys == m.st.heap.Keys && !HoldsString(m.st.heap, 1, 2)
    requires 1 in m.st.stuck || ObjBound(m.st.heap, m.st.upv, {0, 1}, o)
    ensures ClosedSet(m.st, WideBase(m), {0, 1}) && Unheld(m.st.heap, 2)
  {
    forall t ensures !HoldsString(m.st.heap, t, 2) {
      assert t != 1 ==> Nodes(m.st.heap, t) == [] && ArrayOf(m.st.heap, t) == [];
    }
    assert !ListedString(m.st, 2);
  }

  // After the atomic step the table is alive, the object is dead.
  lemma ReadyAfter(m: Mach, s: St, m': Mach, b: set<Ref>, o: Object, k: Object)
    requires Ready(m, o, k) && Unheld(m.st.heap, 2) && ClosedSet(m.st, WideBase(m), {0, 1}) && Collection(m, s, m', b) && SameRoots(m, m') && Orderly(m')
    ensures 2 in Gone(m'.st) && 1 in m'.st.heap && ObjTrim(o, m'.st.heap[1]) && (2 in m'.st.heap ==> ObjTrim(k, m'.st.heap[2]))
  {
    hide Orderly, ClosedSet, Collection, Unheld;
    CollectionTrims(m, s, m', b);
    CollectionDrops(m, s, m', b, {0, 1}, 2);
    OrderlyRoots(m');
    assert 1 !in Gone(m'.st);
    CollectionLasts(m, s, m', b, 1);
  }

  lemma CollectionTrims(m: Mach, s: St, m': Mach, b: set<Ref>)
    requires Collection(m, s, m', b)
    ensures forall r :: r in m'.st.heap ==> r in m.st.heap && ObjTrim(m.st.heap[r], m'.st.heap[r])
  {
    hide LosesOnly, Emptied, OnlyForced, Reached, Finished, TablesClear;
  }

  lemma OrderlyRoots(m: Mach)
    requires Orderly(m)
    ensures RootsClear(Gone(m.st), m.running, m.registry, m.mt) && RootsLive(m)
  {}

  lemma DanglesHere(m: Mach)
    requires m.registry == Obj(1) && 1 in m.st.heap && 2 in Gone(m.st)
    requires !Clear(m.st.heap, m.st.upv, iset{2}, m.st.heap[1])
    ensures Dangles(m, [1, 2])
  {
    assert Edge(m.st, [1, 2][0], [1, 2][0 + 1]);
    assert !RootsClear(iset{1}, m.running, m.registry, m.mt);
  }

  // The object has just been created, while the collector was about to run the atomic step.
  ghost predicate Before(m: Mach, nodes: seq<Node>, k: Object) {
    && m.phase == Atomic && 1 in m.st.allweak && m.mainthread == m.running == 0 && m.registry == Obj(1) && m.mt == []
    && m.finobj == m.tobefnz == [] && m.st.upv == map[] && IsWhite(m.st.color, 2)
    && m.st.heap == map[0 := Thread([], 0, []), 1 := Table(None, AllWeak, [], nodes), 2 := k] && Blank(k)
  }

  method CreateLate(nodes: seq<Node>, k: Object) returns (g: GlobalState)
    requires Blank(k) && forall i :: 0 <= i < |nodes| ==> !nodes[i].dead && !nodes[i].key.Obj? && nodes[i].val.Nil?
    ensures fresh(g) && Before(Snap(g), nodes, k) && Inv(Snap(g))
  {
    hide Inv;
    g := PrepareAtomic(nodes);
    NewBlank(g, 2, k);
  }

  lemma BeforeNames(m: Mach, nodes: seq<Node>, k: Object)
    requires Before(m, nodes, k) && Inv(m)
    ensures Names(m, 1) && (!k.Str? ==> Names(m, 2)) && Usable(m.st, Obj(2)) && 1 in m.st.heap && m.st.heap[1] == Table(None, AllWeak, [], nodes)
    ensures m.phase == Atomic
  {
    hide Inv, MarkInv, Sound;
    MarkFacts(m);
    MarkSound(m.st);
  }

  // The step that follows.
  method Collects(g: GlobalState, o: Object, k: Object)
    requires g.gcstate == Atomic && Ready(Snap(g), o, k) && !HoldsString(g.heap, 1, 2) && Inv(Snap(g))
    requires 1 in g.stuck || ObjBound(g.heap, g.upv, {0, 1}, o)
    modifies g
    ensures 1 in g.heap && ObjTrim(o, g.heap[1]) && 2 in Gone(g.View()) && g.registry == Obj(1) && Orderly(Snap(g))
    ensures 2 in g.heap ==> ObjTrim(k, g.heap[2])
  {
    hide Inv, Orderly, Collection, ToFinalize, NoneOverlooked, Ready, ClosedSet, ObjBound, ObjTrim, HoldsString, Unheld;
    ghost var m := Snap(g);
    ReadyRegistry(m, o, k);
    MarkedColors(m);
    ReadyClosed(m, o, k);
    ghost var b, s;
    b, s := AtomicStep(g);
    ReadyAfter(m, s, Snap(g), b, o, k);
  }

  lemma ReadyRegistry(m: Mach, o: Object, k: Object)
    requires Ready(m, o, k)
    ensures m.registry == Obj(1)
  {}

  lemma KeyReady(m: Mach, m': Mach)
    requires Before(m, [Node(Plain(0), false, Nil)], Str) && m' == m.(st := m'.st, grayagain := m'.grayagain)
    requires m'.st.heap == m.st.heap[1 := Table(None, AllWeak, [], [Node(Plain(0), false, Nil)][0 := Node(Obj(2), false, Nil)])]
    requires m'.st.upv == m.st.upv && Whites(m'.st.color) == Whites(m.st.color)
    ensures Ready(m', Table(None, AllWeak, [], [Node(Obj(2), false, Nil)]), Str) && !HoldsString(m'.st.heap, 1, 2)
  {
    assert 2 in Whites(m.st.color);
    assert [Node(Plain(0), false, Nil)][0 := Node(Obj(2), false, Nil)] == [Node(Obj(2), false, Nil)];
  }

  method PutKey() returns (g: GlobalState)
    ensures fresh(g) && g.gcstate == Atomic && Ready(Snap(g), Table(None, AllWeak, [], [Node(Obj(2), false, Nil)]), Str)
    ensures !HoldsString(g.heap, 1, 2) && Inv(Snap(g))
  {
    hide Inv, Names, Gone, Ready, Before, Whites, HoldsString;
    g := CreateLate([Node(Plain(0), false, Nil)], Str);
    ghost var m := Snap(g);
    BeforeNames(m, [Node(Plain(0), false, Nil)], Str);
    InsertKey(g, 1, 0, Obj(2));
    KeyReady(m, Snap(g));
  }

  // A string is put as a key in an all-weak table, and gets no value. The string is not marked;
  // it is swept, but the entry is not tagged: its key is still read, when a long string is
  // looked up along the same chain, or when the table becomes strong and is traversed.
  method StaleKeyRun() returns (g: GlobalState)
    ensures fresh(g) && Dangles(Snap(g), [1, 2])
    ensures 1 in g.heap && g.heap[1].Table? && g.heap[1].nodes == [Node(Obj(2), false, Nil)]
    ensures 2 in g.heap ==> g.heap[2].Str?
    ensures Orderly(Snap(g)) && !Inv(Snap(g))
  {
    hide Inv, Orderly, Ready, Dangles, Gone, HoldsString;
    g := PutKey();
    var o := Table(None, AllWeak, [], [Node(Obj(2), false, Nil)]);
    Collects(g, o, Str);
    StaleThere(Snap(g), o);
    DanglesUnsound(Snap(g), [1, 2]);
  }

  lemma StaleThere(m: Mach, o: Object)
    requires o == Table(None, AllWeak, [], [Node(Obj(2), false, Nil)]) && 1 in m.st.heap && ObjTrim(o, m.st.heap[1])
    requires 2 in Gone(m.st) && m.registry == Obj(1)
    ensures m.st.heap[1].Table? && m.st.heap[1].nodes == [Node(Obj(2), false, Nil)] && Dangles(m, [1, 2])
  {
    assert m.st.heap[1].nodes[0] == o.nodes[0];
    assert !NodeClear(iset{2}, m.st.heap[1].nodes[0]);
    DanglesHere(m);
  }

  // --------------------------------------------------------- an unmarked metatable

  method PutMetatable() returns (g: GlobalState)
    ensures fresh(g) && g.gcstate == Atomic && Ready(Snap(g), Table(Some(2), AllWeak, [], []), Table(None, Strong, [], [])) && 1 in g.stuck
    ensures !HoldsString(g.heap, 1, 2) && Inv(Snap(g))
  {
    hide Inv, Names, Gone;
    g := CreateLate([], Table(None, Strong, [], []));
    BeforeNames(Snap(g), [], Table(None, Strong, [], []));
    SetMetatable(g, 1, Some(2), AllWeak);
  }

  // An all-weak table that has been visited gets a new metatable, which is not marked.
  method MetatableRun() returns (g: GlobalState)
    ensures fresh(g) && Dangles(Snap(g), [1, 2])
    ensures 1 in g.heap && g.heap[1].Table? && g.heap[1].meta == Some(2)
    ensures Orderly(Snap(g)) && !Inv(Snap(g))
  {
    hide Inv, Orderly, Ready, Dangles, Gone, HoldsString;
    g := PutMetatable();
    Collects(g, Table(Some(2), AllWeak, [], []), Table(None, Strong, [], []));
    MetatableThere(Snap(g));
    DanglesUnsound(Snap(g), [1, 2]);
  }

  lemma MetatableThere(m: Mach)
    requires 1 in m.st.heap && ObjTrim(Table(Some(2), AllWeak, [], []), m.st.heap[1]) && 2 in Gone(m.st) && m.registry == Obj(1)
    ensures m.st.heap[1].Table? && m.st.heap[1].meta == Some(2) && Dangles(m, [1, 2])
  {
    DanglesHere(m);
  }
}
