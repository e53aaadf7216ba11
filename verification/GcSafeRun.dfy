// Runs that never lose anything: as long as no table becomes all-weak and no finalizer is
// called while the sweep position is in its object, every run keeps the invariant.

module GcSafeRun {
  import opened GcHeap
  import opened GcInvariants
  import opened GcState
  import opened GcSteps
  import opened GcMark
  import opened GcConverge
  import opened GcAtomic
  import opened GcMachine
  import opened GcCycle
  import opened GcFinalize
  import opened GcSafety
  import opened GcMutator
  import opened GcUpvalues
  import opened GcEffects
  import opened GcRun

  ghost predicate NoAllWeak(h: Heap) {
    forall r :: r in h && h[r].Table? ==> !h[r].mode.AllWeak?
  }

  ghost predicate Safe(m: Mach) {
    m.st.stuck == {} && NoAllWeak(m.st.heap) && (KeepInvariant(m.phase) ==> m.st.allweak == [])
  }

  // The operation makes no table all-weak; an object to be finalized is not taken off its
  // list where the sweep would lose its position.
  ghost predicate Careful(op: Op, m: Mach) {
    match op
    case OnTable(ChangeMode(_, mode)) => !mode.AllWeak?
    case OnTable(Metatable(_, _, mode)) => !mode.AllWeak?
    case OnRoot(Finalize) => !LosesPosition(m)
    case _ => true
  }

  // ------------------------------------------------------------------- the collector

  lemma SafeModes(m: Mach)
    requires Inv(m) && KeepInvariant(m.phase) && m.st.allweak == []
    ensures ModesKept(m.st)
  {
    MarkFacts(m);
    hide Inv, MarkInv;
    forall r | r in m.st.loc && r in m.st.heap ensures m.st.loc[r] != AllWeakL { AllWeakLinked(m.st, r); }
  }

  lemma SafeList(m: Mach)
    requires Inv(m) && KeepInvariant(m.phase) && ModesKept(m.st) && NoAllWeak(m.st.heap)
    ensures m.st.allweak == []
  {
    MarkFacts(m);
    ListedTables(m.st);
    hide Inv, MarkInv;
    if m.st.allweak != [] {
      var r := m.st.allweak[0];
      assert r in m.st.allweak;
      AllWeakLinked(m.st, r);
    }
  }

  lemma SafeAtomic(m: Mach, m': Mach)
    requires m.phase == Atomic && Inv(m) && Safe(m) && Stepped(m, m')
    ensures Inv(m') && Safe(m')
  {
    hide Inv, Collection, NoneOverlooked;
    SafeModes(m);
    SafeStep(m, m');
    var s, b :| Collection(m, s, m', b) && (Inv(m') <==> NoneOverlooked(s));
    CollectionModes(m, s, m', b);
  }

  lemma CollectionModes(m: Mach, s: St, m': Mach, b: set<Ref>)
    requires Collection(m, s, m', b) && NoAllWeak(m.st.heap)
    ensures NoAllWeak(m'.st.heap) && m'.st.stuck <= m.st.stuck
  {
    hide Exact, Reached, LosesOnly, Emptied, ModesKept, Finished, TablesClear, FinalizableMarked, ListedKeeps, FlagsServed;
    forall r | r in m'.st.heap ensures ObjTrim(m.st.heap[r], m'.st.heap[r]) {}
  }

  lemma SafeCollect(m: Mach, m': Mach)
    requires Inv(m) && Safe(m) && Stepped(m, m')
    ensures Inv(m') && Safe(m')
  {
    hide Inv, Collection, NoneOverlooked, ModesKept, Undisturbed;
    if m.phase == Atomic {
      SafeAtomic(m, m');
    } else {
      if m.phase == Propagate { SafeModes(m); }
      assert NoAllWeak(m'.st.heap);
      if KeepInvariant(m'.phase) && m.phase == Propagate { SafeList(m'); }
    }
  }

  // --------------------------------------------------------------------- the program

  lemma SafeTable(op: TableOp, m: Mach, m': Mach)
    requires Safe(m) && Careful(OnTable(op), m) && TableDone(op, m, m')
    ensures Safe(m')
  {
    hide Gone, Whites, Moved;
  }

  lemma SafeField(op: FieldOp, m: Mach, m': Mach)
    requires Safe(m) && FieldDone(op, m, m')
    ensures Safe(m')
  {
    hide Gone, Whites;
  }

  lemma SafeUpval(op: UpvalOp, m: Mach, m': Mach)
    requires Safe(m) && UpvalDone(op, m, m')
    ensures Safe(m')
  {
    hide Gone, Whites, HasUpval, Place, SplitAt;
  }

  lemma SafeRoot(op: RootOp, m: Mach, m': Mach)
    requires Inv(m) && Safe(m) && Careful(OnRoot(op), m) && RootDone(op, m, m')
    ensures Safe(m')
  {
    hide Inv, Gone, LosesPosition, UvValue;
    if op.Finalize? && m.tobefnz != [] {
      PopKeepsSweep(m);
    }
  }

  // Only a step of the collector could leave the heap unsound, and it does not.
  lemma SafeOp(op: Op, m: Mach, m': Mach)
    requires Inv(m) && Safe(m) && Careful(op, m) && Performed(op, m, m')
    ensures Safe(m') && (op.Collect? ==> Inv(m'))
  {
    hide Inv, Safe, Stepped, Advances, TableDone, FieldDone, UpvalDone, RootDone, Careful;
    match op
    case OnTable(t) => SafeTable(t, m, m');
    case OnField(f) => SafeField(f, m, m');
    case OnUpval(u) => SafeUpval(u, m, m');
    case OnRoot(r) => SafeRoot(r, m, m');
    case Collect(_) => SafeCollect(m, m');
    case Restart => SafeRestart(m, m');
  }

  lemma SafeRestart(m: Mach, m': Mach)
    requires Safe(m) && Performed(Restart, m, m')
    ensures Safe(m')
  {
    hide UvValue, Gone;
  }

  // ------------------------------------------------------------------------- the runs

  ghost predicate AllCareful(ops: seq<Op>, trace: seq<Mach>) {
    forall i :: 0 <= i < |trace| - 1 && i < |ops| ==> Careful(ops[i], trace[i])
  }

  // Every state of a careful run is safe, and the invariant holds after its last step, too,
  // if that is one of the collector.
  lemma {:induction false} SafeTrace(ops: seq<Op>, trace: seq<Mach>)
    requires Traced(ops, trace) && AllCareful(ops, trace) && Safe(trace[0])
    ensures forall i :: 0 <= i < |trace| ==> Safe(trace[i])
    ensures |trace| > 1 && ops[|trace| - 2].Collect? ==> Inv(trace[|trace| - 1])
    decreases |trace|
  {
    hide Inv, Safe, Careful, Performed, ReachedAlive;
    if |trace| > 1 {
      var n := |trace| - 1;
      assert Traced(ops, trace[..n]) && AllCareful(ops, trace[..n]);
      SafeTrace(ops, trace[..n]);
      assert trace[..n][n - 1] == trace[n - 1];
      SafeOp(ops[n - 1], trace[n - 1], trace[n]);
      forall i | 0 <= i < n ensures Safe(trace[i]) { assert trace[..n][i] == trace[i]; }
    }
  }

  // A run from the beginning. If it is careful it goes on to the end, and nothing that can
  // be reached is ever dead or freed.
  method CarefulRun(main: Ref, size: nat, types: nat, ops: seq<Op>) returns (g: GlobalState, ghost trace: seq<Mach>)
    ensures fresh(g) && Traced(ops, trace) && trace[|trace| - 1] == Snap(g)
    ensures AllCareful(ops, trace) ==>
              |trace| == |ops| + 1 && forall i :: 0 <= i < |trace| ==> Inv(trace[i]) && ReachedAlive(trace[i])
  {
    hide Inv, Traced, AllCareful, ReachedAlive;
    g := NewState(main, size, types);
    NewSafe(Snap(g));
    trace := Run(g, ops);
    if AllCareful(ops, trace) {
      SafeTrace(ops, trace);
      TracedInv(ops, trace);
    }
  }

  lemma NewSafe(m: Mach)
    requires m.st.stuck == {} && m.phase == Pause && forall r :: r in m.st.heap ==> m.st.heap[r].Thread?
    ensures Safe(m)
  {}

  lemma TracedInv(ops: seq<Op>, trace: seq<Mach>)
    requires Traced(ops, trace) && Inv(trace[|trace| - 1]) && ReachedAlive(trace[|trace| - 1])
    ensures forall i :: 0 <= i < |trace| ==> Inv(trace[i]) && ReachedAlive(trace[i])
  {
    hide Inv, ReachedAlive, Performed;
  }

  // Any run goes on as long as every atomic step finds what stuck objects refer to, and what
  // is left as a key in the all-weak tables that stay, strongly reachable.
  ghost predicate Served(m: Mach) {
    ModesKept(m.st) && StuckServed(m) && KeysStay(m)
  }

  method ServedRun(g: GlobalState, ops: seq<Op>) returns (ghost trace: seq<Mach>)
    requires Inv(Snap(g))
    modifies g
    ensures Traced(ops, trace) && trace[0] == old(Snap(g)) && trace[|trace| - 1] == Snap(g)
    ensures (forall i :: 0 <= i < |trace| - 1 && ops[i].Collect? && trace[i].phase == Atomic ==> Served(trace[i])) ==>
              |trace| == |ops| + 1 && Inv(Snap(g)) && ReachedAlive(Snap(g))
  {
    hide Inv, ReachedAlive, Served;
    trace := Run(g, ops);
    if !Inv(Snap(g)) {
      ServedEnd(ops, trace);
    }
  }

  lemma ServedEnd(ops: seq<Op>, trace: seq<Mach>)
    requires Traced(ops, trace) && |trace| > 1 && ops[|trace| - 2].Collect? && trace[|trace| - 2].phase == Atomic
    requires !Inv(trace[|trace| - 1])
    ensures !Served(trace[|trace| - 2])
  {
    hide Inv, ReachedAlive, ModesKept, StuckServed, KeysStay, Stepped, Advances;
    var m, m' := trace[|trace| - 2], trace[|trace| - 1];
    assert Performed(ops[|trace| - 2], trace[|trace| - 2], trace[|trace| - 2 + 1]);
    if Served(m) { SafeStep(m, m'); }
  }
}
