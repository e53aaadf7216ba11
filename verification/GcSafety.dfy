// What survives an atomic step and what it collects, in terms of the state before it; and
// when the heap is sound after it.

module GcSafety {
  import opened Common
  import opened GcHeap
  import opened GcInvariants
  import opened GcState
  import opened GcSteps
  import opened GcConverge
  import opened GcMark
  import opened GcAtomic
  import opened GcClear
  import opened GcMachine
  import opened GcCycle
  import opened GcFinalize

  // ---------------------------------------------------------------- strong reachability

  // An entry refers strongly to b. In an ephemeron table that takes a key that is in 'from',
  // or is a string or not collectable.
  ghost predicate StrongIn(h: Heap, from: set<Ref>, mode: Mode, n: Node, b: Ref) {
    && !n.val.Nil?
    && match mode
       case Strong => n.key == Obj(b) || n.val == Obj(b)
       case WeakValues => n.key == Obj(b)
       case Ephemeron => n.val == Obj(b) && (InB(from, n.key) || IsStr(h, n.key))
       case AllWeak => false
  }

  // The object refers strongly to b.
  ghost predicate StrongRef(h: Heap, u: Upvals, from: set<Ref>, o: Object, b: Ref) {
    match o
    case Str => false
    case Udata(mt, uv) => mt == Some(b) || uv == Obj(b)
    case Table(mt, mode, arr, nodes) =>
      || mt == Some(b) || (mode in {Strong, Ephemeron} && Obj(b) in arr)
      || exists i :: 0 <= i < |nodes| && StrongIn(h, from, mode, nodes[i], b)
    case LClosure(p, ids) => p == Some(b) || exists i :: 0 <= i < |ids| && ids[i].Some? && UvValue(h, u, ids[i].value) == Obj(b)
    case CClosure(vs) => Obj(b) in vs
    case Thread(stack, top, _) => exists i :: 0 <= i < |stack| && i < top && stack[i] == Obj(b)
    case Proto(k, parts, _) => Obj(b) in k || Some(b) in parts
  }

  // What an atomic step starts from: the roots, what is marked already and what flagged open
  // upvalues denote; in the end, the objects with finalizers, too.
  ghost predicate Start(m: Mach, late: bool, r: Ref) {
    || r == m.mainthread || !RootsClear(iset{r}, m.running, m.registry, m.mt) || (r in m.st.color && !m.st.color[r].White?)
    || FlaggedValue(m.st, r) || (late && (r in m.finobj || r in m.tobefnz))
  }

  // Each object of the list is one to start from, or an earlier one refers to it strongly (and
  // is not stuck). The key that an ephemeron entry needs is an earlier one, too.
  ghost predicate Derived(m: Mach, late: bool, p: seq<Ref>) {
    forall i :: 0 <= i < |p| ==> p[i] in m.st.heap && (Start(m, late, p[i]) || Reaches(m, p[..i], p[i]))
  }

  ghost predicate Reaches(m: Mach, p: seq<Ref>, r: Ref) {
    exists a :: a in p && a in m.st.heap && a !in m.st.stuck && StrongRef(m.st.heap, m.st.upv, Elements(p), m.st.heap[a], r)
  }

  ghost predicate Derives(m: Mach, late: bool, r: Ref) {
    exists p :: Derived(m, late, p) && p != [] && p[|p| - 1] == r
  }

  // Strongly reachable without the help of finalizers ...
  ghost predicate Survives(m: Mach, r: Ref) {
    Derives(m, false, r)
  }

  // ... and with it.
  ghost predicate Lives(m: Mach, r: Ref) {
    Derives(m, true, r)
  }

  // The objects that are not strongly reachable.
  ghost function Fleeting(m: Mach): iset<Ref> {
    iset r: Ref | r in m.st.heap && !Survives(m, r)
  }

  // Nothing is stuck, and the listed all-weak tables still have that mode.
  ghost predicate Calm(m: Mach) {
    m.st.stuck == {} && ModesKept(m.st)
  }

  // ------------------------------------------------------------------ strings are values

  // A string that the traversal of a table marks, or clearing whatever becomes of others.
  ghost predicate EntryString(mode: Mode, n: Node, r: Ref) {
    && !n.val.Nil?
    && match mode
       case WeakValues => n.val == Obj(r)
       case Ephemeron => n.key == Obj(r)
       case _ => false
  }

  ghost predicate TableString(h: Heap, t: Ref, r: Ref) {
    && IsStr(h, Obj(r)) && t in h && h[t].Table?
    && (Obj(r) in h[t].arr || exists i :: 0 <= i < |h[t].nodes| && EntryString(h[t].mode, h[t].nodes[i], r))
  }

  // Collecting does not take the value, or the key, out of an entry.
  ghost predicate Lasting(m: Mach, late: bool, v: Value) {
    v.Obj? ==> IsStr(m.st.heap, v) || Derives(m, late, v.ref)
  }

  // A string that an entry of an all-weak table keeps. In a table that survives, values are
  // cleared before keys; in one that is only reached from objects with finalizers, keys are.
  ghost predicate EntryKeeps(m: Mach, early: bool, n: Node, r: Ref) {
    && !n.val.Nil?
    && if early then n.val == Obj(r) || (n.key == Obj(r) && Lasting(m, false, n.val))
       else n.key == Obj(r) || (n.val == Obj(r) && Lasting(m, true, n.key))
  }

  ghost predicate AllWeakString(m: Mach, t: Ref, r: Ref) {
    && IsStr(m.st.heap, Obj(r)) && t in m.st.heap && m.st.heap[t].Table? && m.st.heap[t].mode.AllWeak?
    && exists i :: 0 <= i < |m.st.heap[t].nodes| && EntryKeeps(m, Survives(m, t), m.st.heap[t].nodes[i], r)
  }

  ghost predicate KeepsString(m: Mach, t: Ref, r: Ref) {
    t !in m.st.stuck && (TableString(m.st.heap, t, r) || AllWeakString(m, t, r))
  }

  // What a collection keeps: the objects that live, and strings in their tables.
  ghost predicate Stays(m: Mach, r: Ref) {
    Lives(m, r) || exists t :: KeepsString(m, t, r) && Lives(m, t)
  }

  ghost function Lifeless(m: Mach): iset<Ref> {
    iset r: Ref | r in m.st.heap && !Stays(m, r)
  }

  lemma StrongRefIn(h: Heap, u: Upvals, b: set<Ref>, from: set<Ref>, o: Object, r: Ref)
    requires StrongObj(h, u, b, o) && StrongRef(h, u, from, o, r) && from <= b
    ensures r in b
  {
    match o
    case Table(mt, mode, arr, nodes) =>
      if i :| 0 <= i < |nodes| && StrongIn(h, from, mode, nodes[i], r) { assert StrongEntry(h, b, mode, nodes[i]); }
    case Proto(k, parts, _) =>
      if Some(r) in parts { var i :| 0 <= i < |parts| && parts[i] == Some(r); }
    case _ =>
  }

  // A set that is closed under strong references, with all to start from, has every object of
  // a derivation.
  lemma {:induction false} DerivedReached(m: Mach, late: bool, p: seq<Ref>, b: set<Ref>)
    requires Derived(m, late, p) && StrongClosed(m.st.heap, m.st.upv, m.st.stuck, b)
    requires forall r :: r in m.st.heap && Start(m, late, r) ==> r in b
    ensures Elements(p) <= b
    decreases |p|
  {
    if p != [] {
      var q, r := p[..|p| - 1], p[|p| - 1];
      hide StrongRef, StrongObj, Start;
      assert Derived(m, late, q) by { DerivedPrefix(m, late, p); }
      DerivedReached(m, late, q, b);
      assert p == q + [r];
      if !Start(m, late, r) {
        var a :| a in q && a in m.st.heap && a !in m.st.stuck && StrongRef(m.st.heap, m.st.upv, Elements(q), m.st.heap[a], r);
        assert a in Elements(q);
        StrongRefIn(m.st.heap, m.st.upv, b, Elements(q), m.st.heap[a], r);
      }
    }
  }

  lemma DerivedPrefix(m: Mach, late: bool, p: seq<Ref>)
    requires Derived(m, late, p) && p != []
    ensures Derived(m, late, p[..|p| - 1])
  {
    hide Start, Reaches;
    var q := p[..|p| - 1];
    forall i | 0 <= i < |q| ensures q[i] in m.st.heap && (Start(m, late, q[i]) || Reaches(m, q[..i], q[i])) {
      assert q[..i] == p[..i];
    }
  }

  lemma StartReached(m: Mach, r: Ref, b: set<Ref>)
    requires r in m.st.heap && Start(m, false, r) && Reached(m.st, b, m.mainthread, m.running, m.registry, m.mt)
    ensures r in b
  {
    hide StrongClosed, ModesKept;
    assert r in Outside(m.st, b) || r in b;
  }

  // Strong marking has reached what survives.
  lemma SurvivorReached(m: Mach, r: Ref, b: set<Ref>)
    requires Survives(m, r) && Reached(m.st, b, m.mainthread, m.running, m.registry, m.mt) && ModesKept(m.st)
    ensures r in b && r in m.st.heap
  {
    hide ModesKept, Start, Reaches, StrongClosed, RootsClear, MarkedWithin, UvsIn;
    var p :| Derived(m, false, p) && p != [] && p[|p| - 1] == r;
    forall x | x in m.st.heap && Start(m, false, x) ensures x in b { StartReached(m, x, b); }
    DerivedReached(m, false, p, b);
    assert r in Elements(p);
  }

  // Whatever lives has been marked in the end.
  lemma LivingMarked(m: Mach, s: St, m': Mach, b: set<Ref>, r: Ref)
    requires Collection(m, s, m', b) && ModesKept(m.st) && Lives(m, r)
    ensures r in m.st.heap && r in Marked(s.color)
  {
    hide ModesKept, Start, Reaches, StrongClosed, Collection, Marked, Reached;
    CollectionReached(m, s, m', b);
    var p :| Derived(m, true, p) && p != [] && p[|p| - 1] == r;
    forall x | x in m.st.heap && Start(m, true, x) ensures x in Marked(s.color) { StartMarked(m, s, m', b, x); }
    DerivedReached(m, true, p, Marked(s.color));
    assert r in Elements(p);
  }

  lemma StartMarked(m: Mach, s: St, m': Mach, b: set<Ref>, r: Ref)
    requires Collection(m, s, m', b) && r in m.st.heap && Start(m, true, r)
    ensures r in Marked(s.color)
  {
    hide Collection, Reached;
    CollectionReached(m, s, m', b);
    CollectionColors(m, s, m', b);
    if Start(m, false, r) {
      StartReached(m, r, b);
      assert r !in Outside(m.st, b);
    }
  }

  lemma CollectionColors(m: Mach, s: St, m': Mach, b: set<Ref>)
    requires Collection(m, s, m', b)
    ensures s.color.Keys == m.st.heap.Keys && FinalizableMarked(m, s) && TablesClear(s)
    ensures Exact(Entered(m).st, b, s, Least(m.st, WideBase(m)))
  {
    hide Reached, LosesOnly, Emptied, Finished, Exact;
  }

  // What strong marking does not reach is not strongly reachable.
  lemma OutsideFleeting(m: Mach, b: set<Ref>)
    requires Reached(m.st, b, m.mainthread, m.running, m.registry, m.mt) && ModesKept(m.st)
    ensures Outside(m.st, b) <= Fleeting(m)
  {
    hide Reached, ModesKept, Survives;
    forall r | r in Outside(m.st, b) ensures !Survives(m, r) {
      if Survives(m, r) { SurvivorReached(m, r, b); }
    }
  }

  // ----------------------------------------------------------- what an atomic step keeps

  // Whatever is strongly reachable lasts, if the modes of listed all-weak tables have been
  // kept; it loses no references but weak ones to objects that are not.
  lemma SurvivorLasts(m: Mach, m': Mach, r: Ref)
    requires m.phase == Atomic && Stepped(m, m') && ModesKept(m.st) && Survives(m, r)
    ensures Lasts(m, m', r, Fleeting(m))
  {
    hide Inv, NoneOverlooked, Survives, ModesKept, Fleeting;
    var s, b :| Collection(m, s, m', b) && (Inv(m') <==> NoneOverlooked(s));
    CollectionReached(m, s, m', b);
    SurvivorReached(m, r, b);
    OutsideFleeting(m, b);
    ReachedStays(m, s, m', b, r);
    CollectionLasts(m, s, m', b, r);
    hide Collection, Reached;
    LastsMore(m, m', r, Outside(m.st, b), Fleeting(m));
  }

  lemma CollectionReached(m: Mach, s: St, m': Mach, b: set<Ref>)
    requires Collection(m, s, m', b)
    ensures Reached(m.st, b, m.mainthread, m.running, m.registry, m.mt) && Whites(s.color) <= Outside(m.st, b)
    ensures Settling(m.st, s, Outside(m.st, b)) && s.color.Keys == s.heap.Keys
    ensures ModesKept(m.st) ==> StrongClosed(m.st.heap, m.st.upv, m.st.stuck, Marked(s.color))
  {}

  lemma ReachedStays(m: Mach, s: St, m': Mach, b: set<Ref>, r: Ref)
    requires Collection(m, s, m', b) && r in b && r in m.st.heap
    ensures r !in Gone(m'.st)
  {
    assert r !in Outside(m.st, b);
  }

  lemma LastsMore(m: Mach, m': Mach, r: Ref, W: iset<Ref>, W': iset<Ref>)
    requires Lasts(m, m', r, W) && W <= W'
    ensures Lasts(m, m', r, W')
  {}

  // What is strongly reachable is kept, and so are the strings in its tables.
  lemma LivingStays(m: Mach, m': Mach, r: Ref)
    requires m.phase == Atomic && Inv(m) && Stepped(m, m') && ModesKept(m.st) && Stays(m, r)
    ensures r in m.st.heap && r in m'.st.heap && r !in Gone(m'.st) && ObjTrim(m.st.heap[r], m'.st.heap[r])
  {
    hide Inv, NoneOverlooked, Stays, ModesKept;
    var s, b :| Collection(m, s, m', b) && (Inv(m') <==> NoneOverlooked(s));
    StayingMarked(m, s, m', b, r);
    MarkedStays(m, s, m', b, r);
  }

  lemma MarkedStays(m: Mach, s: St, m': Mach, b: set<Ref>, r: Ref)
    requires Collection(m, s, m', b) && r in m.st.heap && r in Marked(s.color)
    ensures r in m'.st.heap && r !in Gone(m'.st) && ObjTrim(m.st.heap[r], m'.st.heap[r])
  {
    assert r !in Whites(s.color);
    hide LosesOnly, Emptied, Reached, Exact;
  }

  // ------------------------------------------------------------- ... and what it collects

  // Not in every set that is closed under the references that marking may follow, and that
  // has the roots, objects with finalizers, values of flagged open upvalues, and strings of
  // tables that are cleared as if they were all-weak.
  ghost predicate Doomed(m: Mach, r: Ref) {
    r in m.st.heap && !Forced(m.st, WideBase(m), r)
  }

  // What a closed set does not contain is collected, unless it is a string in a table.
  lemma DoomedGone(m: Mach, m': Mach, r: Ref)
    requires m.phase == Atomic && Stepped(m, m') && Doomed(m, r) && Unheld(m.st.heap, r)
    ensures r in Gone(m'.st)
  {
    hide Inv, NoneOverlooked, WideBase;
    var s, b :| Collection(m, s, m', b) && (Inv(m') <==> NoneOverlooked(s));
    var keep: set<Ref> :| ClosedSet(m.st, WideBase(m), keep) && r !in keep;
    hide Collection, ClosedSet;
    CollectionDrops(m, s, m', b, keep, r);
  }

  // A reference counts no less when more objects are known to be reachable.
  lemma StrongRefMono(h: Heap, u: Upvals, from: set<Ref>, from': set<Ref>, o: Object, r: Ref)
    requires StrongRef(h, u, from, o, r) && from <= from'
    ensures StrongRef(h, u, from', o, r)
  {
    match o
    case Table(_, mode, _, nodes) =>
      if i :| 0 <= i < |nodes| && StrongIn(h, from, mode, nodes[i], r) { assert StrongIn(h, from', mode, nodes[i], r); }
    case _ =>
  }

  lemma ReachesMore(m: Mach, p: seq<Ref>, q: seq<Ref>, r: Ref)
    requires Reaches(m, q, r)
    ensures Reaches(m, p + q, r)
  {
    hide StrongRef;
    var a :| a in q && a in m.st.heap && a !in m.st.stuck && StrongRef(m.st.heap, m.st.upv, Elements(q), m.st.heap[a], r);
    assert Elements(q) <= Elements(p + q);
    StrongRefMono(m.st.heap, m.st.upv, Elements(q), Elements(p + q), m.st.heap[a], r);
    assert a in p + q;
  }

  lemma DerivedBoth(m: Mach, late: bool, p: seq<Ref>, q: seq<Ref>)
    requires Derived(m, late, p) && Derived(m, late, q)
    ensures Derived(m, late, p + q)
  {
    hide Start, Reaches;
    var l := p + q;
    forall i | 0 <= i < |l| ensures l[i] in m.st.heap && (Start(m, late, l[i]) || Reaches(m, l[..i], l[i])) {
      if i < |p| {
        assert l[..i] == p[..i];
      } else {
        assert l[..i] == p + q[..i - |p|] && l[i] == q[i - |p|];
        if !Start(m, late, l[i]) { ReachesMore(m, p, q[..i - |p|], l[i]); }
      }
    }
  }

  // What something reachable refers to strongly is reachable; in an ephemeron table the key has
  // to be.
  lemma DerivesOn(m: Mach, late: bool, a: Ref, k: Ref, r: Ref)
    requires Derives(m, late, a) && Derives(m, late, k) && a in m.st.heap && a !in m.st.stuck && r in m.st.heap
    requires StrongRef(m.st.heap, m.st.upv, {k}, m.st.heap[a], r)
    ensures Derives(m, late, r)
  {
    hide Start, StrongRef;
    var p :| Derived(m, late, p) && p != [] && p[|p| - 1] == a;
    var q :| Derived(m, late, q) && q != [] && q[|q| - 1] == k;
    DerivedBoth(m, late, p, q);
    var l := p + q;
    assert a in l && k in Elements(l) by { assert l[|p| - 1] == a && l[|l| - 1] == k; }
    StrongRefMono(m.st.heap, m.st.upv, {k}, Elements(l), m.st.heap[a], r);
    assert Reaches(m, l, r);
    hide Reaches;
    var l' := l + [r];
    forall i | 0 <= i < |l'| ensures l'[i] in m.st.heap && (Start(m, late, l'[i]) || Reaches(m, l'[..i], l'[i])) {
      assert i < |l| ==> l'[..i] == l[..i];
      assert i == |l| ==> l'[..i] == l;
    }
    assert Derived(m, late, l') && l'[|l'| - 1] == r;
  }

  lemma DerivesFirst(m: Mach, late: bool, r: Ref)
    requires r in m.st.heap && Start(m, late, r)
    ensures Derives(m, late, r)
  {
    hide Start, Reaches;
    assert Derived(m, late, [r]) && [r][|[r]| - 1] == r;
  }

  // What is reachable, with the strings that traversals mark.
  ghost function Kept(m: Mach, late: bool): set<Ref> {
    set r | r in m.st.heap && (Derives(m, late, r) || WeakString(m, late, r) || ListedString(m.st, r))
  }

  ghost predicate WeakString(m: Mach, late: bool, r: Ref) {
    exists t :: TableString(m.st.heap, t, r) && Derives(m, late, t)
  }

  lemma KeptChild(m: Mach, late: bool, a: Ref, v: Value)
    requires Derives(m, late, a) && a in m.st.heap && a !in m.st.stuck && !In(Missing(m.st.heap), v)
    requires v.Obj? ==> StrongRef(m.st.heap, m.st.upv, {a}, m.st.heap[a], v.ref)
    ensures InB(Kept(m, late), v)
  {
    hide Derives, StrongRef, WeakString, ListedString;
    if v.Obj? { DerivesOn(m, late, a, a, v.ref); }
  }

  lemma KeptString(m: Mach, late: bool, t: Ref, v: Value)
    requires Derives(m, late, t) && (v.Obj? && IsStr(m.st.heap, v) ==> TableString(m.st.heap, t, v.ref))
    ensures StrInB(m.st.heap, Kept(m, late), v)
  {
    hide Derives, TableString, ListedString;
  }

  lemma KeptOpt(m: Mach, late: bool, a: Ref, o: Option<Ref>)
    requires Derives(m, late, a) && a in m.st.heap && a !in m.st.stuck && !OptIn(Missing(m.st.heap), o)
    requires o.Some? ==> StrongRef(m.st.heap, m.st.upv, {a}, m.st.heap[a], o.value)
    ensures OptInB(Kept(m, late), o)
  {
    hide Derives, StrongRef, WeakString, ListedString;
    if o.Some? { DerivesOn(m, late, a, a, o.value); }
  }

  // The entry i refers strongly to r.
  lemma KeptStrong(m: Mach, late: bool, t: Ref, i: nat, k: Ref, r: Ref)
    requires Derives(m, late, t) && Derives(m, late, k) && t in m.st.heap && t !in m.st.stuck && m.st.heap[t].Table? && i < |m.st.heap[t].nodes|
    requires StrongIn(m.st.heap, {k}, m.st.heap[t].mode, m.st.heap[t].nodes[i], r) && r in m.st.heap
    ensures Derives(m, late, r) && r in Kept(m, late)
  {
    hide Derives, StrongIn, WeakString, ListedString;
    DerivesOn(m, late, t, k, r);
  }

  lemma KeptEntry(m: Mach, late: bool, t: Ref, i: nat)
    requires Derives(m, late, t) && t in m.st.heap && t !in m.st.stuck && m.st.heap[t].Table? && i < |m.st.heap[t].nodes|
    requires NodeClear(Missing(m.st.heap), m.st.heap[t].nodes[i]) && (m.st.heap[t].nodes[i].dead ==> m.st.heap[t].nodes[i].val.Nil?)
    requires forall r :: ListedString(m.st, r) ==> IsStr(m.st.heap, Obj(r))
    ensures EntryBound(m.st.heap, Kept(m, late), m.st.heap[t].mode, m.st.heap[t].nodes[i])
  {
    hide Derives, ListedString;
    var n, mode := m.st.heap[t].nodes[i], m.st.heap[t].mode;
    if !n.val.Nil? {
      if mode.Ephemeron? { KeptString(m, late, t, n.key); }
      if mode.WeakValues? { KeptString(m, late, t, n.val); }
      if n.key.Obj? && (mode.Strong? || mode.WeakValues?) { KeptStrong(m, late, t, i, t, n.key.ref); }
      if n.val.Obj? && (mode.Strong? || (mode.Ephemeron? && InB(Kept(m, late), n.key))) {
        var k := if n.key.Obj? && Derives(m, late, n.key.ref) then n.key.ref else t;
        KeptStrong(m, late, t, i, k, n.val.ref);
      }
    }
  }

  lemma KeptTable(m: Mach, late: bool, r: Ref)
    requires Derives(m, late, r) && r in m.st.heap && r !in m.st.stuck && m.st.heap[r].Table?
    requires ObjectWF(m.st.upv, r, m.st.heap[r]) && Clear(m.st.heap, m.st.upv, Missing(m.st.heap), m.st.heap[r])
    requires forall x :: ListedString(m.st, x) ==> IsStr(m.st.heap, Obj(x))
    ensures ObjBound(m.st.heap, m.st.upv, Kept(m, late), m.st.heap[r])
  {
    hide Derives, Kept, ListedString;
    var o := m.st.heap[r];
    KeptOpt(m, late, r, o.meta);
    forall i | 0 <= i < |o.arr| ensures StrInB(m.st.heap, Kept(m, late), o.arr[i]) && (o.mode in {Strong, Ephemeron} ==> InB(Kept(m, late), o.arr[i])) {
      assert o.arr[i] in o.arr;
      KeptString(m, late, r, o.arr[i]);
      if o.mode in {Strong, Ephemeron} { KeptChild(m, late, r, o.arr[i]); }
    }
    forall i | 0 <= i < |o.nodes| ensures EntryBound(m.st.heap, Kept(m, late), o.mode, o.nodes[i]) {
      assert NodeClear(Missing(m.st.heap), o.nodes[i]);
      KeptEntry(m, late, r, i);
    }
  }

  lemma KeptObject(m: Mach, late: bool, r: Ref)
    requires Derives(m, late, r) && r in m.st.heap && r !in m.st.stuck
    requires ObjectWF(m.st.upv, r, m.st.heap[r]) && Clear(m.st.heap, m.st.upv, Missing(m.st.heap), m.st.heap[r])
    requires forall x :: ListedString(m.st, x) ==> IsStr(m.st.heap, Obj(x))
    ensures ObjBound(m.st.heap, m.st.upv, Kept(m, late), m.st.heap[r])
  {
    hide Derives, Kept, ListedString;
    match m.st.heap[r]
    case Str =>
    case Table(_, _, _, _) => KeptTable(m, late, r);
    case Udata(mt, uv) =>
      KeptOpt(m, late, r, mt);
      KeptChild(m, late, r, uv);
    case LClosure(p, ids) =>
      KeptOpt(m, late, r, p);
      forall i | 0 <= i < |ids| && ids[i].Some? ensures InB(Kept(m, late), UvValue(m.st.heap, m.st.upv, ids[i].value)) {
        KeptChild(m, late, r, UvValue(m.st.heap, m.st.upv, ids[i].value));
      }
    case CClosure(vs) =>
      forall i | 0 <= i < |vs| ensures InB(Kept(m, late), vs[i]) { KeptChild(m, late, r, vs[i]); }
    case Thread(stack, top, _) =>
      forall i | 0 <= i < |stack| && i < top ensures InB(Kept(m, late), stack[i]) { KeptChild(m, late, r, stack[i]); }
    case Proto(k, parts, _) =>
      forall i | 0 <= i < |k| ensures InB(Kept(m, late), k[i]) { KeptChild(m, late, r, k[i]); }
      forall i | 0 <= i < |parts| ensures OptInB(Kept(m, late), parts[i]) { KeptOpt(m, late, r, parts[i]); }
  }

  ghost function BaseOf(m: Mach, late: bool): set<Ref> {
    if late then WideBase(m) else Base(m)
  }

  // What is reachable, with the strings that traversals mark, is closed: marking goes no
  // further.
  lemma KeptClosed(m: Mach, late: bool)
    requires Inv(m) && m.phase == Atomic
    ensures ClosedSet(m.st, BaseOf(m, late), Kept(m, late))
  {
    hide Inv, MarkInv, Derives, ObjBound, Base, WideBase;
    MarkFacts(m);
    BoundMarked(m.st);
    InvSound(m);
    WideExists(m);
    BaseBelow(m);
    forall r | r in BaseOf(m, late) ensures r in Kept(m, late) { KeptBase(m, late, r); }
    forall r | r in m.st.color && !m.st.color[r].White? ensures r in Kept(m, late) { DerivesFirst(m, late, r); }
    forall r | r in Kept(m, late) && r in m.st.heap && r !in m.st.stuck ensures ObjBound(m.st.heap, m.st.upv, Kept(m, late), m.st.heap[r]) {
      KeptBound(m, late, r);
    }
  }

  lemma BaseBelow(m: Mach)
    ensures Base(m) <= WideBase(m)
  {}

  lemma ListedStr(m: Mach)
    ensures forall r :: ListedString(m.st, r) ==> IsStr(m.st.heap, Obj(r))
  {}

  lemma KeptBound(m: Mach, late: bool, r: Ref)
    requires MarkInv(m.st, {}) && r in Kept(m, late) && r !in m.st.stuck
    ensures ObjBound(m.st.heap, m.st.upv, Kept(m, late), m.st.heap[r])
  {
    ChildExists(m.st, {}, r);
    WellFormedAt(m.st, r);
    ListedStr(m);
    hide MarkInv, Derives, ListedString;
    if Derives(m, late, r) { KeptObject(m, late, r); }
  }

  lemma KeptBase(m: Mach, late: bool, r: Ref)
    requires r in BaseOf(m, late) && r in m.st.heap
    ensures r in Kept(m, late)
  {
    hide Derives, Start, ListedString, WideBase, Base;
    BaseStart(m, late, r);
    if Start(m, late, r) { DerivesFirst(m, late, r); }
  }

  lemma BaseStart(m: Mach, late: bool, r: Ref)
    requires r in BaseOf(m, late)
    ensures Start(m, late, r) || ListedString(m.st, r)
  {
    hide FlaggedValue, ListedString;
    if Some(r) in m.mt {
      var i :| 0 <= i < |m.mt| && m.mt[i] == Some(r);
      assert OptIn(iset{r}, m.mt[i]);
    }
  }

  // ------------------------------------------------------------- exactly what is marked

  // What was marked before finalizable objects were separated survives, but for strings.
  lemma EarlySurvives(m: Mach, s: St, m': Mach, b: set<Ref>, r: Ref)
    requires Inv(m) && m.phase == Atomic && Collection(m, s, m', b) && r in b && r in m.st.heap && !m.st.heap[r].Str?
    ensures Survives(m, r)
  {
    hide Inv, Collection, Exact, ClosedSet, Derives, ListedString, Base, Least;
    CollectionColors(m, s, m', b);
    EarlyWithinLeast(m, s, b);
    KeptClosed(m, false);
    LeastBelow(m.st, Base(m), Kept(m, false));
    ListedStr(m);
  }

  lemma EarlyWithinLeast(m: Mach, s: St, b: set<Ref>)
    requires Exact(Entered(m).st, b, s, Least(m.st, WideBase(m)))
    ensures b <= Least(m.st, Base(m))
  {
    hide Least, Base, WideBase, ExactLost, OriginIn;
  }

  // What is marked in the end lives, but for strings.
  lemma MarkedLives(m: Mach, s: St, m': Mach, b: set<Ref>, r: Ref)
    requires Inv(m) && m.phase == Atomic && Collection(m, s, m', b) && r in Marked(s.color) && !IsStr(m.st.heap, Obj(r))
    ensures Lives(m, r) && r in m.st.heap
  {
    hide Inv, Collection, Derives, Least, WideBase, ExactLost;
    CollectionColors(m, s, m', b);
    if t :| OriginIn(Entered(m).st, b, s, t, r) {
      OriginHolds(Entered(m).st, b, s, t, r);
    }
    LeastLives(m, r);
  }

  lemma LeastLives(m: Mach, r: Ref)
    requires Inv(m) && m.phase == Atomic && r in Least(m.st, WideBase(m)) && !IsStr(m.st.heap, Obj(r))
    ensures Lives(m, r)
  {
    hide Inv, ClosedSet, Derives, ListedString, WideBase, Least;
    KeptClosed(m, true);
    LeastBelow(m.st, WideBase(m), Kept(m, true));
    ListedStr(m);
  }

  lemma LastingReached(m: Mach, b: set<Ref>, v: Value)
    requires Lasting(m, false, v) && Reached(m.st, b, m.mainthread, m.running, m.registry, m.mt) && ModesKept(m.st)
    ensures !ValueLost(m.st.heap, Outside(m.st, b), v)
  {
    hide Derives, Reached, ModesKept;
    if v.Obj? && Survives(m, v.ref) { SurvivorReached(m, v.ref, b); }
  }

  lemma LastingMarked(m: Mach, s: St, m': Mach, b: set<Ref>, v: Value)
    requires Collection(m, s, m', b) && ModesKept(m.st) && Lasting(m, true, v)
    ensures !ValueLost(m.st.heap, Whites(s.color), v)
  {
    hide Derives, Collection, ModesKept;
    if v.Obj? && Lives(m, v.ref) { LivingMarked(m, s, m', b, v.ref); }
  }

  // An entry of an all-weak table has the string marked if and only if it keeps it.
  lemma AllWeakOrigin(m: Mach, s: St, m': Mach, b: set<Ref>, t: Ref, i: nat, r: Ref)
    requires Inv(m) && m.phase == Atomic && Collection(m, s, m', b) && ModesKept(m.st) && t in m.st.heap && m.st.heap[t].Table?
    requires i < |m.st.heap[t].nodes| && IsStr(m.st.heap, Obj(r))
    ensures OriginAt(m.st.heap, Outside(m.st, b), Whites(s.color), t in b, m.st.heap[t].nodes[i], r)
            <==> EntryKeeps(m, Survives(m, t), m.st.heap[t].nodes[i], r)
  {
    hide Inv, Collection, ModesKept, Reached, Derives, Outside, Whites, StrongClosed, Settling;
    var n := m.st.heap[t].nodes[i];
    CollectionReached(m, s, m', b);
    EntryExistsHere(m, t, i);
    if Survives(m, t) { SurvivorReached(m, t, b); }
    if t in b { EarlySurvives(m, s, m', b, t); }
    if !n.val.Nil? {
      LastingEarly(m, s, m', b, n.val);
      LastingLate(m, s, m', b, n.key);
    }
  }

  lemma EntryExistsHere(m: Mach, t: Ref, i: nat)
    requires Inv(m) && m.phase == Atomic && t in m.st.heap && m.st.heap[t].Table? && i < |m.st.heap[t].nodes|
    ensures var n := m.st.heap[t].nodes[i]; !n.val.Nil? ==> !In(Missing(m.st.heap), n.val) && !In(Missing(m.st.heap), n.key)
  {
    MarkFacts(m);
    ChildExists(m.st, {}, t);
    DeadEmptyAt(m.st, t);
    hide Inv, MarkInv;
    assert NodeClear(Missing(m.st.heap), m.st.heap[t].nodes[i]);
  }

  lemma LastingEarly(m: Mach, s: St, m': Mach, b: set<Ref>, v: Value)
    requires Inv(m) && m.phase == Atomic && Collection(m, s, m', b) && ModesKept(m.st) && !In(Missing(m.st.heap), v)
    ensures Lasting(m, false, v) <==> !ValueLost(m.st.heap, Outside(m.st, b), v)
  {
    hide Inv, Collection, ModesKept, Reached, Derives, StrongClosed, Settling;
    CollectionReached(m, s, m', b);
    if Lasting(m, false, v) {
      LastingReached(m, b, v);
    } else {
      if v.ref in b { EarlySurvives(m, s, m', b, v.ref); }
    }
  }

  lemma LastingLate(m: Mach, s: St, m': Mach, b: set<Ref>, v: Value)
    requires Inv(m) && m.phase == Atomic && Collection(m, s, m', b) && ModesKept(m.st) && !In(Missing(m.st.heap), v)
    ensures Lasting(m, true, v) <==> !ValueLost(m.st.heap, Whites(s.color), v)
  {
    hide Inv, Collection, ModesKept, Derives, Exact, TablesClear;
    CollectionColors(m, s, m', b);
    if Lasting(m, true, v) {
      LastingMarked(m, s, m', b, v);
    } else {
      if v.ref in Marked(s.color) { MarkedLives(m, s, m', b, v.ref); }
    }
  }

  // A string that an all-weak table keeps has been marked.
  lemma AllWeakMarked(m: Mach, s: St, m': Mach, b: set<Ref>, t: Ref, r: Ref)
    requires Inv(m) && m.phase == Atomic && Collection(m, s, m', b) && ModesKept(m.st) && Lives(m, t) && t !in m.st.stuck && AllWeakString(m, t, r)
    ensures r in Marked(s.color)
  {
    hide Inv, Collection, ModesKept, Derives, EntryKeeps, OriginAt, ExactLost, TablesClear, Least, WideBase;
    CollectionColors(m, s, m', b);
    LivingMarked(m, s, m', b, t);
    var i :| 0 <= i < |m.st.heap[t].nodes| && EntryKeeps(m, Survives(m, t), m.st.heap[t].nodes[i], r);
    AllWeakOrigin(m, s, m', b, t, i, r);
    assert Nodes(Entered(m).st.heap, t)[i] == m.st.heap[t].nodes[i];
    assert OriginIn(Entered(m).st, b, s, t, r);
  }

  // So has one that another table keeps.
  lemma TableMarks(m: Mach, s: St, m': Mach, b: set<Ref>, t: Ref, r: Ref)
    requires Inv(m) && m.phase == Atomic && Collection(m, s, m', b) && ModesKept(m.st) && Lives(m, t) && t !in m.st.stuck && TableString(m.st.heap, t, r)
    ensures r in Marked(s.color)
  {
    hide Collection, ModesKept, Reached, Derives, Exact, TablesClear, Settling, Inv, StrongClosed, Outside;
    CollectionReached(m, s, m', b);
    CollectionColors(m, s, m', b);
    LivingMarked(m, s, m', b, t);
    TableKept(m, s, Outside(m.st, b), t);
    var o, o' := m.st.heap[t], s.heap[t];
    if Obj(r) in o.arr {
      var i :| 0 <= i < |o.arr| && o.arr[i] == Obj(r);
      assert o'.arr[i] == Obj(r);
    } else {
      var i :| 0 <= i < |o.nodes| && EntryString(o.mode, o.nodes[i], r);
      StringEntryStays(m, s, m', b, t, i, r);
      assert o'.nodes[i].val == o.nodes[i].val && NodeTrim(o.nodes[i], o'.nodes[i]);
    }
  }

  // An entry with such a string is not lost.
  lemma StringEntryStays(m: Mach, s: St, m': Mach, b: set<Ref>, t: Ref, i: nat, r: Ref)
    requires Inv(m) && m.phase == Atomic && Collection(m, s, m', b) && ModesKept(m.st) && Lives(m, t) && t !in m.st.stuck
    requires t in m.st.heap && m.st.heap[t].Table? && i < |m.st.heap[t].nodes| && IsStr(m.st.heap, Obj(r))
    requires EntryString(m.st.heap[t].mode, m.st.heap[t].nodes[i], r)
    ensures i < |Nodes(s.heap, t)| && Nodes(s.heap, t)[i].val == m.st.heap[t].nodes[i].val
  {
    hide Collection, ModesKept, Derives, Exact, TablesClear, Inv, Outside, Whites, StrongIn;
    var n, mode := m.st.heap[t].nodes[i], m.st.heap[t].mode;
    CollectionColors(m, s, m', b);
    ExactNode(m, s, b, t, i);
    EntryExistsHere(m, t, i);
    if mode.WeakValues? {
      if n.key.Obj? { KeptStrongHere(m, true, t, i, n.key.ref); }
      LastingMarked(m, s, m', b, n.key);
    } else {
      if n.val.Obj? { KeptStrongHere(m, true, t, i, n.val.ref); }
      LastingMarked(m, s, m', b, n.val);
      if t in b {
        EarlySurvives(m, s, m', b, t);
        if n.val.Obj? { KeptStrongHere(m, false, t, i, n.val.ref); }
        LastingEarly(m, s, m', b, n.val);
      }
    }
  }

  lemma KeptStrongHere(m: Mach, late: bool, t: Ref, i: nat, r: Ref)
    requires Derives(m, late, t) && t in m.st.heap && t !in m.st.stuck && m.st.heap[t].Table? && i < |m.st.heap[t].nodes|
    requires !m.st.heap[t].nodes[i].val.Nil? && r in m.st.heap
    requires (m.st.heap[t].mode.WeakValues? && m.st.heap[t].nodes[i].key == Obj(r)) ||
             (m.st.heap[t].mode.Ephemeron? && m.st.heap[t].nodes[i].val == Obj(r) && IsStr(m.st.heap, m.st.heap[t].nodes[i].key))
    ensures Derives(m, late, r)
  {
    hide Derives, Kept;
    KeptStrong(m, late, t, i, t, r);
  }

  lemma ExactNode(m: Mach, s: St, b: set<Ref>, t: Ref, i: nat)
    requires Exact(Entered(m).st, b, s, Least(m.st, WideBase(m))) && t in m.st.heap && m.st.heap[t].Table? && i < |m.st.heap[t].nodes|
    ensures i < |Nodes(s.heap, t)|
    ensures var n := m.st.heap[t].nodes[i];
      || Nodes(s.heap, t)[i].val == n.val || (t in b && ValueLost(m.st.heap, Outside(m.st, b), n.val)) || EntryLost(m.st.heap, Whites(s.color), n)
  {
    hide Least, WideBase, OriginIn, ValueLost;
    assert Outside(Entered(m).st, b) == Outside(m.st, b);
    assert ExactLost(Entered(m).st, b, s, Nodes(Entered(m).st.heap, t), Nodes(s.heap, t), t in b);
  }

  lemma TableKept(m: Mach, s: St, W: iset<Ref>, t: Ref)
    requires Settling(m.st, s, W) && TablesClear(s) && t in m.st.heap && m.st.heap[t].Table? && t !in m.st.stuck && t in Marked(s.color)
    ensures t in s.heap && s.heap[t].Table? && TableLoses(m.st.heap, W, m.st.heap[t], s.heap[t]) && NodesTrim(m.st.heap[t].nodes, s.heap[t].nodes)
    ensures ContentsClear(Whites(s.color), s.heap[t].arr, s.heap[t].nodes)
  {
    assert ObjTrim(m.st.heap[t], s.heap[t]);
    hide TableLoses, ContentsClear, ModesKept, Emptied, NodesTrim;
  }

  // What stays has been marked ...
  lemma StayingMarked(m: Mach, s: St, m': Mach, b: set<Ref>, r: Ref)
    requires Inv(m) && m.phase == Atomic && Collection(m, s, m', b) && ModesKept(m.st) && Stays(m, r)
    ensures r in m.st.heap && r in Marked(s.color)
  {
    hide Inv, Collection, ModesKept, Derives, TableString, AllWeakString, Marked;
    if Lives(m, r) {
      LivingMarked(m, s, m', b, r);
    } else {
      var t :| KeepsString(m, t, r) && Lives(m, t);
      StringExists(m, t, r);
      if TableString(m.st.heap, t, r) { TableMarks(m, s, m', b, t, r); } else { AllWeakMarked(m, s, m', b, t, r); }
    }
  }

  lemma StringExists(m: Mach, t: Ref, r: Ref)
    requires KeepsString(m, t, r)
    ensures r in m.st.heap
  {}

  // ... and if nothing is stuck, nothing else has.
  lemma MarkedStaying(m: Mach, s: St, m': Mach, b: set<Ref>, r: Ref)
    requires Inv(m) && m.phase == Atomic && Collection(m, s, m', b) && Calm(m) && r in Marked(s.color)
    ensures Stays(m, r)
  {
    hide Inv, Collection, ModesKept, Derives, TableString, AllWeakString, Least, WideBase, ExactLost, TablesClear;
    CollectionColors(m, s, m', b);
    if r in Least(m.st, WideBase(m)) {
      LeastStays(m, r);
    } else {
      var t :| OriginIn(Entered(m).st, b, s, t, r);
      OriginStays(m, s, m', b, t, r);
    }
  }

  lemma LeastStays(m: Mach, r: Ref)
    requires Inv(m) && m.phase == Atomic && Calm(m) && r in Least(m.st, WideBase(m))
    ensures Stays(m, r)
  {
    hide Inv, ClosedSet, Derives, ListedString, WideBase, Least, TableString, AllWeakString, ModesKept;
    KeptClosed(m, true);
    LeastBelow(m.st, WideBase(m), Kept(m, true));
    NothingListed(m, r);
    if !Lives(m, r) {
      assert WeakString(m, true, r);
      var t :| TableString(m.st.heap, t, r) && Derives(m, true, t);
      assert KeepsString(m, t, r) && Lives(m, t);
    }
  }

  lemma NothingListed(m: Mach, r: Ref)
    requires Inv(m) && m.phase == Atomic && Calm(m)
    ensures !ListedString(m.st, r)
  {
    hide Inv, HoldsString;
    MarkFacts(m);
    ListedTables(m.st);
    forall t | t in m.st.allweak ensures Regular(m.st, t) { ListedRegular(m.st, t); }
  }

  lemma ListedRegular(s: St, t: Ref)
    requires MarkInv(s, {}) && !s.inside && s.stuck == {} && ModesKept(s) && t in s.allweak
    ensures Regular(s, t)
  {
    ListedIn(s, t);
    hide HeapWF, Exist, NoDead, FixedOk, TwupsOk, StuckOk, StuckPlaces, BlackInv, BoundClosed, MarkedWithin, GrayDone;
    assert Merged(s.loc)[t] == AllWeakL;
    assert GrayOk(Whites(s.color), s.inside, s.fixed, s.loc[t], t, s.heap[t]);
  }

  lemma OriginStays(m: Mach, s: St, m': Mach, b: set<Ref>, t: Ref, r: Ref)
    requires Inv(m) && m.phase == Atomic && Collection(m, s, m', b) && ModesKept(m.st) && OriginIn(Entered(m).st, b, s, t, r)
    ensures Stays(m, r)
  {
    hide Inv, Collection, ModesKept, Derives, EntryKeeps, OriginAt, HoldsString;
    OriginHolds(Entered(m).st, b, s, t, r);
    MarkedLives(m, s, m', b, t);
    assert Outside(Entered(m).st, b) == Outside(m.st, b);
    var i :| 0 <= i < |Nodes(m.st.heap, t)| && OriginAt(m.st.heap, Outside(m.st, b), Whites(s.color), t in b, Nodes(m.st.heap, t)[i], r);
    OriginStr(m, t, r);
    AllWeakOrigin(m, s, m', b, t, i, r);
    assert AllWeakString(m, t, r);
    assert KeepsString(m, t, r) && Lives(m, t);
  }

  lemma OriginStr(m: Mach, t: Ref, r: Ref)
    requires HoldsString(m.st.heap, t, r)
    ensures IsStr(m.st.heap, Obj(r))
  {}

  // What does not stay is collected.
  lemma LifelessGone(m: Mach, m': Mach, r: Ref)
    requires m.phase == Atomic && Inv(m) && Stepped(m, m') && ModesKept(m.st) && !Stays(m, r) && (m.st.stuck == {} || Unheld(m.st.heap, r))
    ensures r in Gone(m'.st)
  {
    hide Inv, NoneOverlooked, Stays, ModesKept;
    var s, b :| Collection(m, s, m', b) && (Inv(m') <==> NoneOverlooked(s));
    CollectionHeap(m, s, m', b);
    hide Collection, Exact;
    if r in Marked(s.color) {
      if m.st.stuck == {} { MarkedStaying(m, s, m', b, r); } else { MarkedUnheld(m, s, m', b, r); }
      assert false;
    }
  }

  lemma MarkedUnheld(m: Mach, s: St, m': Mach, b: set<Ref>, r: Ref)
    requires Inv(m) && m.phase == Atomic && Collection(m, s, m', b) && r in Marked(s.color) && Unheld(m.st.heap, r)
    ensures Stays(m, r)
  {
    hide Inv, Collection, Derives, Least, WideBase, ExactLost, ClosedSet, HoldsString, TablesClear, OriginIn;
    CollectionColors(m, s, m', b);
    KeptClosed(m, true);
    LeastBelow(m.st, WideBase(m), Kept(m, true));
    if t :| OriginIn(Entered(m).st, b, s, t, r) {
      OriginHolds(Entered(m).st, b, s, t, r);
      assert false;
    }
    if t :| TableString(m.st.heap, t, r) && Derives(m, true, t) { StringHeld(m.st.heap, t, r); }
    hide TableString;
  }

  lemma StringHeld(h: Heap, t: Ref, r: Ref)
    requires TableString(h, t, r)
    ensures HoldsString(h, t, r)
  {
    if Obj(r) !in h[t].arr {
      var i :| 0 <= i < |h[t].nodes| && EntryString(h[t].mode, h[t].nodes[i], r);
      assert Nodes(h, t)[i] == h[t].nodes[i];
    }
  }

  // With nothing stuck, an atomic step collects exactly what is not strongly reachable, from the
  // roots or an object with a finalizer, and is not a string that such a table keeps.
  lemma CollectsExactly(m: Mach, m': Mach, r: Ref)
    requires m.phase == Atomic && Inv(m) && Stepped(m, m') && Calm(m)
    ensures r in Gone(m'.st) <==> !Stays(m, r)
  {
    hide Inv, Stepped, Stays, ModesKept;
    if Stays(m, r) { LivingStays(m, m', r); } else { LifelessGone(m, m', r); }
  }

  // ------------------------------------------------------- when the heap is sound after it

  // The all-weak table t has an emptied entry, not tagged dead, whose key is k.
  ghost predicate LeftKey(h: Heap, t: Ref, k: Ref) {
    && t in h && h[t].Table? && h[t].mode.AllWeak?
    && exists i :: 0 <= i < |h[t].nodes| && h[t].nodes[i].val.Nil? && !h[t].nodes[i].dead && h[t].nodes[i].key == Obj(k)
  }

  // No key is left in an entry of a table that lives while the key does not stay.
  ghost predicate KeysStay(m: Mach) {
    forall t, k :: LeftKey(m.st.heap, t, k) && Lives(m, t) ==> Stays(m, k)
  }

  // Whatever stuck objects refer to stays.
  ghost predicate StuckServed(m: Mach) {
    forall r :: r in m.st.stuck && r in m.st.heap ==> Clear(m.st.heap, m.st.upv, Lifeless(m), m.st.heap[r])
  }

  lemma SafeStuck(m: Mach, s: St, W: iset<Ref>, r: Ref)
    requires StuckServed(m) && HeapWF(m.st.heap, m.st.upv) && Settling(m.st, s, W) && Whites(s.color) <= Lifeless(m)
    requires r in s.stuck && r in s.heap
    ensures Clear(s.heap, s.upv, Whites(s.color), s.heap[r])
  {
    TrimKeys(m.st.heap, s.heap);
    hide Clear, HeapWF, Trim, LosesOnly, Emptied, Lifeless;
    TrimClear(m.st.heap, m.st.upv, s.heap, s.upv, Lifeless(m), r);
    ClearAntitone(s.heap, s.upv, Lifeless(m), Whites(s.color), s.heap[r]);
  }

  // An entry that is stale in the end was so before the step.
  lemma StaleBefore(m: Mach, s: St, W: iset<Ref>, r: Ref, i: nat)
    requires Settling(m.st, s, W) && ModesKept(m.st) && r in s.heap && r in s.loc && s.loc[r] == AllWeakL
    requires i < |Nodes(s.heap, r)| && StaleKey(Whites(s.color), Nodes(s.heap, r)[i])
    ensures LeftKey(m.st.heap, r, Nodes(s.heap, r)[i].key.ref)
  {
    assert s.heap[r].Table? && s.heap[r].mode.AllWeak?;
    hide ModesKept, LosesOnly;
    assert ObjTrim(m.st.heap[r], s.heap[r]);
    var n, n' := m.st.heap[r].nodes[i], s.heap[r].nodes[i];
    assert NodeTrim(n, n') && EmptiedOk(Whites(s.color), m.st.heap[r].nodes, s.heap[r].nodes);
    assert m.st.heap[r].nodes[i].key == Obj(n'.key.ref);
  }

  lemma SafeKey(m: Mach, s: St, W: iset<Ref>, r: Ref, i: nat)
    requires KeysStay(m) && Settling(m.st, s, W) && ModesKept(m.st) && Whites(s.color) <= Lifeless(m) && OnlyLiving(m, s)
    requires r in s.heap && r in s.color && !s.color[r].White? && r in s.loc && s.loc[r] == AllWeakL && i < |Nodes(s.heap, r)|
    ensures !StaleKey(Whites(s.color), Nodes(s.heap, r)[i])
  {
    hide Lives, Stays, Settling, ModesKept, LeftKey;
    if StaleKey(Whites(s.color), Nodes(s.heap, r)[i]) {
      StaleBefore(m, s, W, r, i);
      LeftTable(m, r, Nodes(s.heap, r)[i].key.ref);
      assert false;
    }
  }

  // Tables that are marked in the end live.
  ghost predicate OnlyLiving(m: Mach, s: St) {
    forall r :: r in s.color && !s.color[r].White? && r in m.st.heap && m.st.heap[r].Table? ==> Lives(m, r)
  }

  lemma LivingTables(m: Mach, s: St, m': Mach, b: set<Ref>)
    requires Inv(m) && m.phase == Atomic && Collection(m, s, m', b)
    ensures OnlyLiving(m, s)
  {
    hide Inv, Collection, Derives;
    forall r | r in s.color && !s.color[r].White? && r in m.st.heap && m.st.heap[r].Table? ensures Lives(m, r) { MarkedLives(m, s, m', b, r); }
  }

  lemma LeftTable(m: Mach, t: Ref, k: Ref)
    requires LeftKey(m.st.heap, t, k)
    ensures t in m.st.heap && m.st.heap[t].Table?
  {}

  lemma SafeSettled(m: Mach, s: St, W: iset<Ref>)
    requires KeysStay(m) && StuckServed(m) && HeapWF(m.st.heap, m.st.upv) && ModesKept(m.st) && Settling(m.st, s, W)
    requires OnlyLiving(m, s) && Whites(s.color) <= Lifeless(m)
    ensures NoneOverlooked(s)
  {
    hide KeysStay, StuckServed, HeapWF, ModesKept, Settling, OnlyLiving, Clear, StaleKey, Whites, Lifeless;
    forall r | r in s.heap ensures !Overlooked(s, r) {
      if r in s.stuck { SafeStuck(m, s, W, r); }
      if r in s.color && !s.color[r].White? && r in s.loc && s.loc[r] == AllWeakL {
        forall i | 0 <= i < |Nodes(s.heap, r)| ensures !StaleKey(Whites(s.color), Nodes(s.heap, r)[i]) { SafeKey(m, s, W, r, i); }
      }
    }
  }

  lemma WhiteLifeless(m: Mach, s: St, m': Mach, b: set<Ref>)
    requires Inv(m) && m.phase == Atomic && Collection(m, s, m', b) && ModesKept(m.st)
    ensures Whites(s.color) <= Lifeless(m)
  {
    CollectionColors(m, s, m', b);
    hide Inv, Collection, ModesKept, Stays;
    forall r | r in Whites(s.color) ensures !Stays(m, r) {
      if Stays(m, r) { StayingMarked(m, s, m', b, r); }
    }
  }

  // The step keeps the invariant if what stuck objects refer to, and what is left as a key in
  // an emptied entry of an all-weak table that lives, is strongly reachable.
  lemma SafeStep(m: Mach, m': Mach)
    requires m.phase == Atomic && Inv(m) && Stepped(m, m') && ModesKept(m.st) && StuckServed(m) && KeysStay(m)
    ensures Inv(m')
  {
    hide Inv, NoneOverlooked, StuckServed, KeysStay, ModesKept, Lifeless, MarkInv, Collection, OnlyLiving;
    var s, b :| Collection(m, s, m', b) && (Inv(m') <==> NoneOverlooked(s));
    MarkFacts(m);
    MarkedWF(m.st);
    LivingTables(m, s, m', b);
    CollectionReached(m, s, m', b);
    WhiteLifeless(m, s, m', b);
    hide Reached, Settling, Whites;
    SafeSettled(m, s, Outside(m.st, b));
  }

  // What a collection never takes out of an object: a key that is left, and the references
  // of an object that is not a weak table.
  ghost predicate Holds(m: Mach, t: Ref, k: Ref) {
    || LeftKey(m.st.heap, t, k)
    || (t in m.st.stuck && t in m.st.heap &&
        match m.st.heap[t]
        case Table(mt, _, _, _) => mt == Some(k)
        case Udata(mt, uv) => mt == Some(k) || uv == Obj(k)
        case _ => false)
  }

  lemma HeldStays(m: Mach, m': Mach, t: Ref, k: Ref)
    requires Holds(m, t, k) && t in m.st.heap && t in m'.st.heap && ObjTrim(m.st.heap[t], m'.st.heap[t])
    ensures !Clear(m'.st.heap, m'.st.upv, iset{k}, m'.st.heap[t])
  {
    if LeftKey(m.st.heap, t, k) {
      var ns, ns' := m.st.heap[t].nodes, m'.st.heap[t].nodes;
      var i :| 0 <= i < |ns| && ns[i].val.Nil? && !ns[i].dead && ns[i].key == Obj(k);
      assert EmptyKept(ns, ns') && ns'[i] == ns[i];
      assert !NodeClear(iset{k}, ns'[i]);
    }
  }

  // It breaks the invariant if such a reference is to an object that does not stay, and the
  // one that holds it lives.
  lemma UnsafeStep(m: Mach, m': Mach, t: Ref, k: Ref)
    requires m.phase == Atomic && Inv(m) && Stepped(m, m') && ModesKept(m.st)
    requires Holds(m, t, k) && Lives(m, t) && !Stays(m, k) && (m.st.stuck == {} || Unheld(m.st.heap, k))
    ensures !Inv(m')
  {
    hide Inv, Stepped, ModesKept, Derives, KeepsString, Holds, ObjTrim, Clear, HoldsString;
    LivingStays(m, m', t);
    LifelessGone(m, m', k);
    HeldStays(m, m', t, k);
    if Inv(m') {
      InvSound(m');
      ClearAntitone(m'.st.heap, m'.st.upv, Gone(m'.st), iset{k}, m'.st.heap[t]);
    }
  }

  // With nothing stuck, the step breaks the invariant exactly if a key is left in a table
  // that is strongly reachable, and the key does not stay.
  lemma StepExact(m: Mach, m': Mach)
    requires m.phase == Atomic && Inv(m) && Stepped(m, m') && Calm(m)
    ensures Inv(m') <==> KeysStay(m)
  {
    hide Inv, Stepped, ModesKept, Derives, KeepsString, LeftKey, Lifeless;
    if KeysStay(m) {
      assert StuckServed(m);
      SafeStep(m, m');
    } else {
      var t, k :| LeftKey(m.st.heap, t, k) && Lives(m, t) && !Stays(m, k);
      assert Holds(m, t, k);
      UnsafeStep(m, m', t, k);
    }
  }
}
