// The whole collector state, its invariant in every phase, and what the invariant
// means for the program: nothing that can be reached is ever dead or freed.

module GcMachine {
  import opened Common
  import opened GcHeap
  import opened GcInvariants
  import opened GcState
  import opened GcMark
  import opened GcAtomic

  datatype Mach = Mach(st: St, phase: GcPhase, grayagain: seq<Ref>,
                       allgc: seq<Ref>, finobj: seq<Ref>, tobefnz: seq<Ref>, sweepgc: Option<nat>,
                       mainthread: Ref, running: Ref, registry: Value, mt: seq<Option<Ref>>)

  ghost function Snap(g: GlobalState): (m: Mach)
    reads g
  {
    Mach(g.View(), g.gcstate, g.grayagain, g.allgc, g.finobj, g.tobefnz, g.sweepgc,
         g.mainthread, g.running, g.registry, g.mt)
  }

  // Freed objects, and dead ones: those with the white that is not the current one.
  ghost function Gone(s: St): iset<Ref> {
    iset r: Ref | r !in s.heap || (r in s.color && s.color[r] == White(!s.white))
  }

  // No object that is not dead leads to a dead or freed one.
  ghost predicate Sound(s: St) {
    forall r :: r in s.heap && r !in Gone(s) ==> Clear(s.heap, s.upv, Gone(s), s.heap[r])
  }

  ghost predicate IsThread(h: Heap, r: Ref) {
    r in h && h[r].Thread?
  }

  // Only tables and userdata have finalizers.
  ghost predicate Finalizable(h: Heap, rs: seq<Ref>) {
    forall r :: r in rs ==> r in h && (h[r].Table? || h[r].Udata?)
  }

  ghost predicate RootsLive(m: Mach) {
    && IsThread(m.st.heap, m.mainthread) && IsThread(m.st.heap, m.running)
    && m.mainthread !in Gone(m.st) && RootsClear(Gone(m.st), m.running, m.registry, m.mt)
    && NoneOf(Gone(m.st), m.tobefnz) && NoneOf(Gone(m.st), m.finobj)
    && Finalizable(m.st.heap, m.tobefnz) && Finalizable(m.st.heap, m.finobj)
  }

  // Every object is in exactly one list, except the main thread, which is in none.
  ghost predicate Partition(m: Mach) {
    multiset(m.allgc) + multiset(m.finobj) + multiset(m.tobefnz) + multiset(m.st.fixed) + multiset{m.mainthread}
    == multiset(m.st.heap.Keys)
  }

  // ------------------------------------------------------------- the marking phases

  predicate KeepInvariant(p: GcPhase) {
    p == Propagate || p == Atomic
  }

  ghost predicate MarkPhase(m: Mach) {
    && !m.st.inside && !m.st.remarked && !m.st.clearing && m.st.bound == m.st.heap.Keys && m.grayagain == m.st.again
    && m.sweepgc.None? && !IsWhite(m.st.color, m.mainthread)
    && (m.phase == Propagate ==> m.st.gray != [])
    && MarkInv(m.st, {})
  }

  // --------------------------------------------------- sweeping, and between cycles

  // Stuck objects are those that the sweep has missed.
  ghost predicate SweptTo(s: St, l: seq<Ref>, n: nat) {
    forall i :: 0 <= i < |l| && i < n ==> l[i] in s.color && (s.color[l[i]] == White(s.white) || l[i] in s.stuck)
  }

  // How far the list of the current state has been swept.
  function Pos(sweepgc: Option<nat>, l: seq<Ref>): nat {
    if sweepgc.Some? then sweepgc.value else |l|
  }

  ghost predicate Swept(m: Mach) {
    match m.phase
    case SwpAllGc =>
      && (m.sweepgc.Some? ==> m.sweepgc.value > 0)  // it points inside the list, not to its head
      && Pos(m.sweepgc, m.allgc) <= |m.allgc| && SweptTo(m.st, m.allgc, Pos(m.sweepgc, m.allgc))
    case SwpFinObj =>
      && Pos(m.sweepgc, m.finobj) <= |m.finobj| && SweptTo(m.st, m.allgc, |m.allgc|)
      && SweptTo(m.st, m.finobj, Pos(m.sweepgc, m.finobj))
    case SwpToBeFnz =>
      && Pos(m.sweepgc, m.tobefnz) <= |m.tobefnz| && SweptTo(m.st, m.allgc, |m.allgc|)
      && SweptTo(m.st, m.finobj, |m.finobj|) && SweptTo(m.st, m.tobefnz, Pos(m.sweepgc, m.tobefnz))
    case _ =>
      && m.sweepgc.None? && SweptTo(m.st, m.allgc, |m.allgc|)
      && SweptTo(m.st, m.finobj, |m.finobj|) && SweptTo(m.st, m.tobefnz, |m.tobefnz|)
      && (m.phase == SwpEnd || (m.mainthread in m.st.color && m.st.color[m.mainthread] == White(m.st.white)))
  }

  // 'twups' has the threads with open upvalues, none of them dead.
  ghost predicate TwupsLive(s: St) {
    && NoDup(s.twups)
    && (forall th :: th in s.twups ==> IsThread(s.heap, th) && th !in Gone(s))
    && (forall th :: IsThread(s.heap, th) && s.heap[th].openupval != [] && th !in Gone(s) ==> th in s.twups)
  }

  ghost predicate RestOk(s: St) {
    && s.color.Keys == s.heap.Keys && s.bound == s.heap.Keys && !s.inside && !s.remarked && !s.clearing
    && HeapWF(s.heap, s.upv) && FixedOk(s.heap, s.color, s.fixed) && StuckOk(s.heap, s.color, s.stuck)
    && TwupsLive(s)
  }

  // ---------------------------------------------------------------- the invariant

  ghost predicate Inv(m: Mach) {
    && RootsLive(m) && Partition(m) && m.phase != InsideAtomic
    && if KeepInvariant(m.phase) then MarkPhase(m) else Swept(m) && RestOk(m.st) && Sound(m.st)
  }

  // Outside the marking phases: the invariant but for soundness.
  ghost predicate Orderly(m: Mach) {
    RootsLive(m) && Partition(m) && !KeepInvariant(m.phase) && m.phase != InsideAtomic && Swept(m) && RestOk(m.st)
  }

  // The invariant taken apart and put together, for proofs that hide its parts.
  lemma InvMark(m: Mach)
    requires KeepInvariant(m.phase)
    ensures Inv(m) <==> RootsLive(m) && Partition(m) && MarkPhase(m)
  {
    hide RootsLive, Partition, MarkPhase;
  }

  lemma InvRest(m: Mach)
    requires !KeepInvariant(m.phase)
    ensures Inv(m) <==> RootsLive(m) && Partition(m) && m.phase != InsideAtomic && Swept(m) && RestOk(m.st) && Sound(m.st)
    ensures Inv(m) <==> Orderly(m) && Sound(m.st)
  {
    hide RootsLive, Partition, Swept, RestOk, Sound;
  }

  lemma MarkSound(s: St)
    requires MarkInv(s, {})
    ensures Gone(s) == Missing(s.heap) && Sound(s)
  {
    assert Gone(s) == Missing(s.heap);
  }

  lemma InvSound(m: Mach)
    requires Inv(m)
    ensures Sound(m.st) && RootsLive(m)
  {
    hide MarkInv, Sound;
    if KeepInvariant(m.phase) { MarkSound(m.st); }
  }

  // ------------------------------------------------------------------ reachability

  // Object a holds a reference to b, strong or weak.
  ghost predicate Edge(s: St, a: Ref, b: Ref) {
    a in s.heap && !Clear(s.heap, s.upv, iset{b}, s.heap[a])
  }

  ghost predicate IsRoot(m: Mach, r: Ref) {
    r == m.mainthread || r in m.tobefnz || !RootsClear(iset{r}, m.running, m.registry, m.mt)
  }

  ghost predicate Path(s: St, p: seq<Ref>) {
    p != [] && forall i :: 0 <= i < |p| - 1 ==> Edge(s, p[i], p[i + 1])
  }

  // Whatever can be reached, even through weak references and through the keys of emptied
  // entries, exists and is not dead.
  lemma {:induction false} ReachableAlive(m: Mach, p: seq<Ref>)
    requires Inv(m) && Path(m.st, p) && IsRoot(m, p[0])
    ensures p[|p| - 1] in m.st.heap && p[|p| - 1] !in Gone(m.st)
    decreases |p|
  {
    hide Inv, Sound;
    InvSound(m);
    var b := p[|p| - 1];
    if |p| == 1 {
      RootAlive(m, b);
    } else {
      var a := p[|p| - 2];
      assert Edge(m.st, p[|p| - 2], p[|p| - 2 + 1]);
      ReachableAlive(m, p[..|p| - 1]);
      EdgeAlive(m.st, a, b);
    }
  }

  lemma RootAlive(m: Mach, r: Ref)
    requires RootsLive(m) && IsRoot(m, r)
    ensures r !in Gone(m.st) && r in m.st.heap
  {}

  lemma EdgeAlive(s: St, a: Ref, b: Ref)
    requires Sound(s) && Edge(s, a, b) && a !in Gone(s)
    ensures b !in Gone(s) && b in s.heap
  {
    if b in Gone(s) {
      ClearAntitone(s.heap, s.upv, Gone(s), iset{b}, s.heap[a]);
    }
  }
}
