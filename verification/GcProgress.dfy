// The collector makes progress: after an atomic step, enough steps bring the cycle to its
// end whatever the program does in between, and everything that is dead is freed by then.

module GcProgress {
  import opened Common
  import opened GcHeap
  import opened GcInvariants
  import opened GcState
  import opened GcSteps
  import opened GcMark
  import opened GcConverge
  import opened GcAtomic
  import opened GcMachine
  import opened GcSweep
  import opened GcCycle
  import opened GcFinalize
  import opened GcUpvalues
  import opened GcObjects
  import opened GcEffects
  import opened GcRun
  import opened GcSafety

  // ------------------------------------------------------------- what is left to be done

  // With w white and g gray objects out of n.
  function Marking(w: nat, g: nat, n: nat): nat {
    w * (n + 1) + g + 2 * n + 6
  }

  // A bound for the steps, each of at least one object, that the cycle still takes.
  ghost function Work(m: Mach): nat {
    match m.phase
    case Pause => 0
    case Propagate => Marking(|WhiteSet(m.st.color)|, |m.st.gray|, |m.st.heap|)
    case Atomic => 2 * |m.st.heap| + 6
    case InsideAtomic => 1
    case SwpAllGc => Unswept(m.sweepgc, m.allgc) + |m.finobj| + 2 * |m.tobefnz| + 5
    case SwpFinObj => Unswept(m.sweepgc, m.finobj) + 2 * |m.tobefnz| + 4
    case SwpToBeFnz => Unswept(m.sweepgc, m.tobefnz) + |m.tobefnz| + 3
    case SwpEnd => |m.tobefnz| + 2
    case CallFin => |m.tobefnz| + 1
  }

  // Marking is over, and the cycle is not.
  predicate AfterMark(p: GcPhase) {
    Sweeps(p) || p == SwpEnd || p == CallFin
  }

  // ------------------------------------------------------------------------- one operation

  // A step of the collector that handles an object.
  function Counts(op: Op): nat {
    if op.Collect? && op.count > 0 then 1 else 0
  }

  // An object that gets a finalizer may have to be swept in its new list.
  function Delays(op: Op): nat {
    if op.OnRoot? && op.r.Finalizer? then 1 else 0
  }

  // The operation brings a dead string back, or uses the place of a freed object again.
  predicate Revives(op: Op, r: Ref) {
    op.OnRoot? && ((op.r.Intern? && op.r.r == r) || (op.r.Create? && op.r.r == r))
  }

  // What each operation keeps between marking and the end of the cycle.
  ghost predicate GoesOn(op: Op, m: Mach, m': Mach) {
    && (if op.Collect? then AfterMark(m'.phase) || m'.phase == Pause else m'.phase == m.phase)
    && Work(m') + Counts(op) <= Work(m) + Delays(op)
    && GoneLasts(op, m.st, m'.st)
  }

  // No object dies, and those that are dead or freed stay so.
  ghost predicate GoneLasts(op: Op, s: St, s': St) {
    Gone(s') <= Gone(s) && forall r :: r in Gone(s) && !Revives(op, r) ==> r in Gone(s')
  }

  lemma SweepGoesOn(m: Mach, m': Mach, count: nat)
    requires Sweeps(m.phase) && Swept(m) && Sweeping(m, m') && SweptBy(m, m', count)
    ensures GoesOn(Collect(count), m, m')
  {
    hide SweptTo, KeepsColors, SamePrefix, Sublist;
  }

  lemma CollectGoesOn(m: Mach, m': Mach, count: nat)
    requires AfterMark(m.phase) && Inv(m) && Advances(m, m', count)
    ensures GoesOn(Collect(count), m, m')
  {
    hide Inv, Sweeping, SweptBy, Swept, RestOk, Partition, Sound, GoesOn;
    InvRest(m);
    if Sweeps(m.phase) {
      SweepGoesOn(m, m', count);
    } else if m.phase == SwpEnd {
      EndGoesOn(m, m', count);
    } else {
      FinGoesOn(m, m', count);
    }
  }

  lemma EndGoesOn(m: Mach, m': Mach, count: nat)
    requires m.phase == SwpEnd && m' == Ended(m) && RootsLive(m)
    ensures GoesOn(Collect(count), m, m')
  {}

  lemma FinGoesOn(m: Mach, m': Mach, count: nat)
    requires m.phase == CallFin && m' == CalledFin(m)
    ensures GoesOn(Collect(count), m, m')
  {}

  // Only the heap, the upvalues and the marks change.
  lemma SameListsGoOn(op: Op, m: Mach, m': Mach)
    requires m' == m.(st := m'.st, grayagain := m'.grayagain) && AfterMark(m.phase) && !op.Collect?
    requires GoneLasts(op, m.st, m'.st)
    ensures GoesOn(op, m, m')
  {}

  lemma TableGoesOn(op: TableOp, m: Mach, m': Mach)
    requires AfterMark(m.phase) && TableDone(op, m, m')
    ensures GoesOn(OnTable(op), m, m')
  {
    hide MayTable, Gone, Whites, GoesOn;
    SameListsGoOn(OnTable(op), m, m');
  }

  lemma FieldGoesOn(op: FieldOp, m: Mach, m': Mach)
    requires AfterMark(m.phase) && FieldDone(op, m, m')
    ensures GoesOn(OnField(op), m, m')
  {
    hide MayField, Gone, Whites, GoesOn;
    SameListsGoOn(OnField(op), m, m');
  }

  lemma AddedGone(m: Mach, m': Mach, th: Ref, level: nat, uv: UvId)
    requires Added(m, m', th, level, uv)
    ensures m' == m.(st := m'.st) && Gone(m'.st) == Gone(m.st)
  {
    hide Place;
    assert m'.st.heap.Keys == m.st.heap.Keys;
  }

  lemma UpvalGoesOn(op: UpvalOp, m: Mach, m': Mach)
    requires AfterMark(m.phase) && UpvalDone(op, m, m')
    ensures GoesOn(OnUpval(op), m, m')
  {
    hide MayUpval, Gone, Whites, GoesOn, HasUpval, Added, SplitAt;
    if op.Find? && Added(m, m', op.th, op.level, op.uv) { AddedGone(m, m', op.th, op.level, op.uv); }
    SameListsGoOn(OnUpval(op), m, m');
  }

  lemma PoppedGoesOn(m: Mach, m': Mach)
    requires AfterMark(m.phase) && Swept(m) && RootsLive(m) && m.tobefnz != [] && m' == Popped(m)
    ensures GoesOn(OnRoot(Finalize), m, m')
  {
    hide SweptTo;
    assert m.tobefnz[0] !in Gone(m.st);
  }

  lemma CreatedGoesOn(m: Mach, m': Mach, r: Ref, o: Object)
    requires AfterMark(m.phase) && Swept(m) && r !in m.st.heap && m' == BornIn(m, r, o)
    ensures GoesOn(OnRoot(Create(r, o)), m, m')
  {
    hide SweptTo;
  }

  lemma RelistedGoesOn(m: Mach, m': Mach, o: Ref)
    requires AfterMark(m.phase) && Swept(m) && Relisted(m, m', o)
    ensures GoesOn(OnRoot(Finalizer(o)), m, m')
  {
    hide Sweeping, Onward, Whiten, GoesOn, Swept;
    var op := OnRoot(Finalizer(o));
    if o in m.allgc {
      var m1, i: nat :| SweptOut(m, m1, o, i) && m' == MovedTo(m1, i);
      SweptOutWork(m, m1, o, i);
      MovedWork(m1, i);
      MovedGoesOn(m, m1, m', o);
    } else {
      SameListsGoOn(op, m, m');
    }
  }

  lemma SweptOutWork(m: Mach, m1: Mach, o: Ref, i: nat)
    requires AfterMark(m.phase) && SweptOut(m, m1, o, i)
    ensures m1.phase == m.phase && i < |m1.allgc| && Gone(m1.st) == Gone(m.st) && Work(m1) <= Work(m)
  {
    hide SamePrefix;
  }

  lemma MovedWork(m: Mach, i: nat)
    requires AfterMark(m.phase) && i < |m.allgc|
    ensures MovedTo(m, i).phase == m.phase && Work(MovedTo(m, i)) <= Work(m) + 1 && MovedTo(m, i).st == m.st
  {}

  lemma MovedGoesOn(m: Mach, m1: Mach, m': Mach, o: Ref)
    requires Gone(m1.st) == Gone(m.st) && m'.st == m1.st && m'.phase == m1.phase == m.phase && Work(m1) <= Work(m) && Work(m') <= Work(m1) + 1
    ensures GoesOn(OnRoot(Finalizer(o)), m, m')
  {
    hide Work;
  }

  lemma RootGoesOn(op: RootOp, m: Mach, m': Mach)
    requires AfterMark(m.phase) && Inv(m) && RootDone(op, m, m')
    ensures GoesOn(OnRoot(op), m, m')
  {
    hide Inv, RootsLive, Partition, Swept, RestOk, Sound, GoesOn, BornIn, Relisted, Popped, Fixed;
    InvRest(m);
    match op
    case Create(r, o) => if m' != m { CreatedGoesOn(m, m', r, o); } else { SameListsGoOn(OnRoot(op), m, m'); }
    case Finalizer(r) => if m' != m { RelistedGoesOn(m, m', r); } else { SameListsGoOn(OnRoot(op), m, m'); }
    case Finalize => if m' != m { PoppedGoesOn(m, m'); } else { SameListsGoOn(OnRoot(op), m, m'); }
    case TypeMetatable(_, _) => RootsGoOn(op, m, m');
    case Registry(_) => RootsGoOn(op, m, m');
    case Switch(_) => RootsGoOn(op, m, m');
    case _ => SameListsGoOn(OnRoot(op), m, m');
  }

  lemma RootsGoOn(op: RootOp, m: Mach, m': Mach)
    requires AfterMark(m.phase) && m' == m.(mt := m'.mt, registry := m'.registry, running := m'.running)
    ensures GoesOn(OnRoot(op), m, m')
  {}

  lemma PhaseOf(op: Op, m: Mach, m': Mach)
    ensures GoesOn(op, m, m') && AfterMark(m.phase) && m'.phase == Pause ==> op.Collect?
  {}

  lemma OpGoesOn(op: Op, m: Mach, m': Mach)
    requires AfterMark(m.phase) && Inv(m) && Performed(op, m, m')
    ensures GoesOn(op, m, m') && (m'.phase == Pause ==> Inv(m'))
  {
    hide Inv, GoesOn, TableDone, FieldDone, UpvalDone, RootDone, Advances, Undisturbed, Quiet, Abandoned;
    PhaseOf(op, m, m');
    match op
    case OnTable(t) => TableGoesOn(t, m, m');
    case OnField(f) => FieldGoesOn(f, m, m');
    case OnUpval(u) => UpvalGoesOn(u, m, m');
    case OnRoot(r) => RootGoesOn(r, m, m');
    case Collect(count) => CollectGoesOn(m, m', count);
    case Restart => SameListsGoOn(op, m, m');
  }

  // ------------------------------------------------------------------------- whole runs

  // How many steps of the collector that handle an object a run has, and how many objects
  // get finalizers in it.
  function Steps(ops: seq<Op>): nat {
    if ops == [] then 0 else Steps(ops[..|ops| - 1]) + Counts(ops[|ops| - 1])
  }

  function Delayed(ops: seq<Op>): nat {
    if ops == [] then 0 else Delayed(ops[..|ops| - 1]) + Delays(ops[|ops| - 1])
  }

  predicate Revived(ops: seq<Op>, r: Ref) {
    exists i :: 0 <= i < |ops| && Revives(ops[i], r)
  }

  lemma OneMoreOp(ops: seq<Op>, n: nat)
    requires n < |ops|
    ensures Steps(ops[..n + 1]) == Steps(ops[..n]) + Counts(ops[n])
    ensures Delayed(ops[..n + 1]) == Delayed(ops[..n]) + Delays(ops[n])
    ensures forall r :: Revived(ops[..n + 1], r) <==> Revived(ops[..n], r) || Revives(ops[n], r)
  {
    assert ops[..n + 1][..n] == ops[..n];
    assert ops[..n + 1] == ops[..n] + [ops[n]];
  }

  // The run so far, in which the cycle has not come to its end.
  ghost predicate Underway(ops: seq<Op>, m: Mach, m': Mach) {
    && AfterMark(m'.phase) && Work(m') + Steps(ops) <= Work(m) + Delayed(ops)
    && Gone(m'.st) <= Gone(m.st) && forall r :: r in Gone(m.st) && !Revived(ops, r) ==> r in Gone(m'.st)
  }

  lemma UnderwayNext(ops: seq<Op>, n: nat, m0: Mach, m: Mach, m': Mach)
    requires n < |ops| && Underway(ops[..n], m0, m) && GoesOn(ops[n], m, m') && m'.phase != Pause
    ensures Underway(ops[..n + 1], m0, m')
  {
    hide Work, Gone;
    OneMoreOp(ops, n);
  }

  lemma UnderwayStart(ops: seq<Op>, m: Mach)
    requires AfterMark(m.phase)
    ensures Underway(ops[..0], m, m)
  {
    hide Work, Gone;
  }

  lemma UnderwayPhase(ops: seq<Op>, m0: Mach, m: Mach)
    requires Underway(ops, m0, m)
    ensures AfterMark(m.phase) && Work(m) > 0
  {}

  lemma {:induction false} RunUnderway(ops: seq<Op>, trace: seq<Mach>, n: nat)
    requires Traced(ops, trace) && n < |trace| && AfterMark(trace[0].phase) && forall i :: 0 <= i <= n ==> trace[i].phase != Pause
    ensures Underway(ops[..n], trace[0], trace[n])
  {
    hide Inv, Performed, ReachedAlive, Underway, GoesOn;
    if n == 0 {
      UnderwayStart(ops, trace[0]);
    } else {
      RunUnderway(ops, trace, n - 1);
      UnderwayPhase(ops[..n - 1], trace[0], trace[n - 1]);
      assert Performed(ops[n - 1], trace[n - 1], trace[n - 1 + 1]);
      OpGoesOn(ops[n - 1], trace[n - 1], trace[n]);
      UnderwayNext(ops, n - 1, trace[0], trace[n - 1], trace[n]);
    }
  }

  // The objects of m that are not dead, and those that 'ops' has created or brought back,
  // are what is in the heap in m'.
  ghost predicate DeadFreed(ops: seq<Op>, m: Mach, m': Mach) {
    && (forall r: Ref :: r !in Gone(m.st) ==> r in m'.st.heap)
    && forall r :: r in m'.st.heap ==> r !in Gone(m.st) || Revived(ops, r)
  }

  // The step that ends the cycle.
  lemma CycleEnds(ops: seq<Op>, trace: seq<Mach>, n: nat)
    requires Traced(ops, trace) && 0 < n < |trace| && AfterMark(trace[0].phase) && trace[n].phase == Pause
    requires forall i :: 0 <= i < n ==> trace[i].phase != Pause
    ensures DeadFreed(ops[..n], trace[0], trace[n]) && Inv(trace[n])
  {
    hide Inv, Performed, ReachedAlive, Underway, GoesOn, Gone;
    RunUnderway(ops, trace, n - 1);
    UnderwayPhase(ops[..n - 1], trace[0], trace[n - 1]);
    assert Performed(ops[n - 1], trace[n - 1], trace[n - 1 + 1]);
    OpGoesOn(ops[n - 1], trace[n - 1], trace[n]);
    RestGone(trace[n]);
    EndsFreed(ops, n - 1, trace[0], trace[n - 1], trace[n]);
  }

  lemma EndsFreed(ops: seq<Op>, n: nat, m0: Mach, m: Mach, m': Mach)
    requires n < |ops| && Underway(ops[..n], m0, m) && GoesOn(ops[n], m, m') && Gone(m'.st) == Missing(m'.st.heap)
    ensures DeadFreed(ops[..n + 1], m0, m')
  {
    hide Work, Gone;
    OneMoreOp(ops, n);
    forall r: Ref | r !in Gone(m0.st) ensures r in m'.st.heap { assert r !in Gone(m.st) && r !in Missing(m'.st.heap); }
    forall r | r in m'.st.heap ensures r !in Gone(m0.st) || Revived(ops[..n + 1], r) { assert r !in Missing(m'.st.heap); }
  }

  lemma FirstPause(trace: seq<Mach>, k: nat) returns (n: nat)
    requires k < |trace| && trace[k].phase == Pause
    ensures n <= k && trace[n].phase == Pause && forall i :: 0 <= i < n ==> trace[i].phase != Pause
  {
    n := 0;
    while trace[n].phase != Pause
      invariant n <= k && forall i :: 0 <= i < n ==> trace[i].phase != Pause
      decreases k - n
    {
      n := n + 1;
    }
  }

  // After marking, a run with enough steps of the collector comes to the end of the cycle,
  // and what was dead has been freed by then, and nothing else has. The program may do
  // anything meanwhile.
  lemma SweepCompletes(ops: seq<Op>, trace: seq<Mach>)
    requires Traced(ops, trace) && AfterMark(trace[0].phase)
    requires Steps(ops[..|trace| - 1]) >= Work(trace[0]) + Delayed(ops[..|trace| - 1])
    ensures exists n :: 0 < n < |trace| && trace[n].phase == Pause && Inv(trace[n]) && DeadFreed(ops[..n], trace[0], trace[n])
  {
    hide Inv, Performed, ReachedAlive, Work, DeadFreed;
    var last := |trace| - 1;
    if k: nat :| k < |trace| && trace[k].phase == Pause {
      var n := FirstPause(trace, k);
      CycleEnds(ops, trace, n);
    } else {
      RunUnderway(ops, trace, last);
      UnderwayPhase(ops[..last], trace[0], trace[last]);
      assert false;
    }
  }

  // -------------------------------------------------------------------- whole collections

  lemma TracedTail(ops: seq<Op>, trace: seq<Mach>)
    requires Traced(ops, trace) && |trace| > 1
    ensures Traced(ops[1..], trace[1..]) && trace[1..][0] == trace[1]
    ensures Performed(ops[0], trace[0], trace[1])
  {
    hide Inv, Performed, ReachedAlive;
    forall i | 0 <= i < |trace[1..]| - 1
      ensures Inv(trace[1..][i]) && ReachedAlive(trace[1..][i]) && Performed(ops[1..][i], trace[1..][i], trace[1..][i + 1])
    {
      assert Inv(trace[i + 1]) && ReachedAlive(trace[i + 1]) && Performed(ops[i + 1], trace[i + 1], trace[i + 1 + 1]);
    }
    assert Performed(ops[0], trace[0], trace[0 + 1]);
  }

  // The lists share the objects of the heap among them.
  lemma ListsSmall(m: Mach)
    requires Partition(m)
    ensures |m.allgc| + |m.finobj| + |m.tobefnz| <= |m.st.heap|
  {
    assert |multiset(m.st.heap.Keys)| == |m.st.heap.Keys| == |m.st.heap|;
    assert |multiset(m.allgc)| == |m.allgc| && |multiset(m.finobj)| == |m.finobj| && |multiset(m.tobefnz)| == |m.tobefnz|;
  }

  lemma FewerKeys(h: Heap, h': Heap)
    requires h'.Keys <= h.Keys
    ensures |h'| <= |h|
  {
    SubsetSize(h'.Keys, h.Keys);
    assert |h| == |h.Keys| && |h'| == |h'.Keys|;
  }

  lemma {:induction false} SubsetSize(a: set<Ref>, b: set<Ref>)
    requires a <= b
    ensures |a| <= |b| && (a != b ==> |a| < |b|)
    decreases a
  {
    if x :| x in a {
      SubsetSize(a - {x}, b - {x});
      assert a == (a - {x}) + {x} && b == (b - {x}) + {x};
    } else {
      assert a == {};
    }
  }

  // How much sweeping there is after an atomic step.
  lemma AtomicWork(m: Mach, m': Mach)
    requires m.phase == Atomic && Stepped(m, m') && Inv(m')
    ensures AfterMark(m'.phase) && Work(m') < Work(m) && m'.st.heap.Keys <= m.st.heap.Keys
  {
    hide Inv, NoneOverlooked, Partition, Swept, RestOk, Sound, RootsLive, Exact, Collected;
    var s, b :| Collection(m, s, m', b) && (Inv(m') <==> NoneOverlooked(s));
    InvRest(m');
    ListsSmall(m');
    FewerKeys(m.st.heap, m'.st.heap);
  }

  // A run from an atomic step on that goes on to the end of the cycle frees exactly what is
  // not strongly reachable in the state before that step (see Stays).
  lemma CollectionCompletes(ops: seq<Op>, trace: seq<Mach>)
    requires Traced(ops, trace) && |trace| > 2 && trace[0].phase == Atomic && ops[0].Collect? && Calm(trace[0])
    requires Steps(ops[1..|trace| - 1]) >= 2 * |trace[0].st.heap| + 5 + Delayed(ops[1..|trace| - 1])
    ensures exists n :: 1 < n < |trace| && trace[n].phase == Pause && Inv(trace[n]) && StaysOnly(ops[1..n], trace[0], trace[n])
  {
    hide Inv, Performed, ReachedAlive, Work, DeadFreed, StaysOnly, Calm, Stepped;
    AtomicStarts(ops, trace);
    TailCompletes(ops, trace);
    var n :| 1 < n < |trace| && trace[n].phase == Pause && Inv(trace[n]) && DeadFreed(ops[1..n], trace[1], trace[n]);
    FreedStays(ops[1..n], trace[0], trace[1], trace[n]);
  }

  lemma TailCompletes(ops: seq<Op>, trace: seq<Mach>)
    requires Traced(ops, trace) && |trace| > 2 && AfterMark(trace[1].phase)
    requires Steps(ops[1..|trace| - 1]) >= Work(trace[1]) + Delayed(ops[1..|trace| - 1])
    ensures exists n :: 1 < n < |trace| && trace[n].phase == Pause && Inv(trace[n]) && DeadFreed(ops[1..n], trace[1], trace[n])
  {
    hide Inv, Performed, ReachedAlive, Work, DeadFreed;
    TracedTail(ops, trace);
    var tail := trace[1..];
    assert ops[1..][..|tail| - 1] == ops[1..|trace| - 1];
    SweepCompletes(ops[1..], tail);
    var n :| 0 < n < |tail| && tail[n].phase == Pause && Inv(tail[n]) && DeadFreed(ops[1..][..n], tail[0], tail[n]);
    assert ops[1..][..n] == ops[1..n + 1] && tail[n] == trace[n + 1];
  }

  // The objects that stay, and those that 'ops' has created or brought back, are the heap.
  ghost predicate StaysOnly(ops: seq<Op>, m: Mach, m': Mach) {
    && (forall r: Ref :: Stays(m, r) ==> r in m'.st.heap)
    && forall r :: r in m'.st.heap ==> Stays(m, r) || Revived(ops, r)
  }

  lemma FreedStays(ops: seq<Op>, m: Mach, m1: Mach, m': Mach)
    requires m.phase == Atomic && Inv(m) && Stepped(m, m1) && Calm(m) && DeadFreed(ops, m1, m')
    ensures StaysOnly(ops, m, m')
  {
    hide Inv, Stepped, Stays, Calm, Gone;
    forall r ensures r in Gone(m1.st) <==> !Stays(m, r) { CollectsExactly(m, m1, r); }
  }

  lemma AtomicStarts(ops: seq<Op>, trace: seq<Mach>)
    requires Traced(ops, trace) && |trace| > 2 && trace[0].phase == Atomic && ops[0].Collect?
    ensures Inv(trace[0]) && Stepped(trace[0], trace[1]) && Inv(trace[1]) && AfterMark(trace[1].phase)
    ensures Work(trace[1]) <= 2 * |trace[0].st.heap| + 5
  {
    hide Inv, ReachedAlive, Stepped, Advances;
    assert Performed(ops[0], trace[0], trace[0 + 1]);
    AtomicWork(trace[0], trace[1]);
  }

  // ------------------------------------------------------------- the collector by itself

  // A bound for the work of any state with n objects.
  function CycleWork(n: nat): nat {
    n * (n + 1) + 3 * n + 6
  }

  lemma {:induction false} NoDupSize(xs: seq<Ref>, s: set<Ref>)
    requires NoDup(xs) && forall x :: x in xs ==> x in s
    ensures |xs| <= |s|
    decreases |xs|
  {
    if xs != [] {
      forall x | x in xs[1..] ensures x in xs && x != xs[0] {}
      NoDupSize(xs[1..], s - {xs[0]});
    }
  }

  lemma GraySmall(s: St)
    requires MarkInv(s, {})
    ensures |s.gray| <= |s.heap| && |WhiteSet(s.color)| <= |s.heap|
  {
    GrayListed(s);
    hide MarkInv;
    NoDupSize(s.gray, s.heap.Keys);
    SubsetSize(WhiteSet(s.color), s.heap.Keys);
    assert |s.heap| == |s.heap.Keys|;
  }

  lemma GrayListed(s: St)
    requires MarkInv(s, {})
    ensures NoDup(s.gray) && (forall r :: r in s.gray ==> r in s.heap.Keys) && WhiteSet(s.color) <= s.heap.Keys
  {
    hide HeapWF, Exist, NoDead, FixedOk, TwupsOk, StuckOk, StuckPlaces, BlackInv, GrayInv, BoundClosed, MarkedWithin;
  }

  lemma Times(a: nat, b: nat, c: nat)
    requires a <= b
    ensures a * c <= b * c
  {
    assert b * c == a * c + (b - a) * c;
  }

  lemma MarkWork(w: nat, g: nat, n: nat)
    requires w <= n && g <= n
    ensures Marking(w, g, n) <= CycleWork(n)
  {
    Times(w, n, n + 1);
  }

  lemma WorkSmall(m: Mach)
    requires Inv(m)
    ensures Work(m) <= CycleWork(|m.st.heap|)
  {
    hide Inv, Partition, MarkInv, Marking, CycleWork;
    Linear(|m.st.heap|);
    if m.phase == Propagate {
      MarkFacts(m);
      GraySmall(m.st);
      MarkWork(|WhiteSet(m.st.color)|, |m.st.gray|, |m.st.heap|);
    } else if m.phase != Atomic {
      InvLists(m);
      ListsSmall(m);
    }
  }

  lemma Linear(n: nat)
    ensures 2 * n + 6 <= CycleWork(n)
  {}

  lemma InvLists(m: Mach)
    requires Inv(m)
    ensures Partition(m) && m.phase != InsideAtomic
  {}

  lemma FewerWhites(w: nat, w': nat, g: nat, g': nat, n: nat)
    requires w' < w && g' <= n
    ensures Marking(w', g', n) < Marking(w, g, n)
  {
    Times(w' + 1, w, n + 1);
    assert (w' + 1) * (n + 1) == w' * (n + 1) + (n + 1);
  }

  lemma FewerGray(w: nat, g: nat, n: nat)
    ensures 2 * n + 6 < Marking(w, g + 1, n) && Marking(w, g, n) < Marking(w, g + 1, n)
    ensures 2 * n + 6 <= Marking(w, g, n)
  {}

  // Traversing a gray object marks others, or there is one less.
  lemma PropagateLess(m: Mach, m': Mach)
    requires MarkInv(m'.st, {}) && Propagated(m, m')
    ensures m'.st.heap.Keys == m.st.heap.Keys && |m'.st.heap| == |m.st.heap| && |m'.st.gray| <= |m.st.heap|
    ensures if WhiteSet(m'.st.color) == WhiteSet(m.st.color) then |m.st.gray| == |m'.st.gray| + 1
            else |WhiteSet(m'.st.color)| < |WhiteSet(m.st.color)|
  {
    var W, W' := WhiteSet(m.st.color), WhiteSet(m'.st.color);
    SameKeys(m.st, m'.st);
    hide MarkInv, Progress, OnlyForced;
    GraySmall(m'.st);
    assert |m'.st.heap| == |m'.st.heap.Keys| == |m.st.heap.Keys| == |m.st.heap|;
    if W' != W { SubsetSize(W', W); }
  }

  lemma PropagateWork(m: Mach, m': Mach)
    requires m.phase == Propagate && MarkInv(m'.st, {}) && Propagated(m, m')
    ensures Work(m') < Work(m) && m'.st.heap.Keys == m.st.heap.Keys
  {
    hide MarkInv, Progress, OnlyForced, Marking, WhiteSet, Whites, Unswept;
    PropagateLess(m, m');
    var w, w', n := |WhiteSet(m.st.color)|, |WhiteSet(m'.st.color)|, |m.st.heap|;
    if WhiteSet(m'.st.color) == WhiteSet(m.st.color) {
      FewerGray(w, |m'.st.gray|, n);
    } else {
      FewerWhites(w, w', |m.st.gray|, |m'.st.gray|, n);
      FewerGray(w', |m'.st.gray|, n);
    }
  }

  lemma SameKeys(s: St, s': St)
    requires Progress(s, s')
    ensures s'.heap.Keys == s.heap.Keys && WhiteSet(s'.color) <= WhiteSet(s.color)
    ensures WhiteSet(s'.color) == WhiteSet(s.color) ==> Whites(s'.color) == Whites(s.color)
  {
    WhiteSetMeasure(s.color, s'.color);
  }

  lemma StepWork(op: Op, m: Mach, m': Mach)
    requires Inv(m) && Inv(m') && Performed(op, m, m') && Counts(op) == 1
    ensures m'.st.heap.Keys <= m.st.heap.Keys && (m.phase != Pause ==> Work(m') < Work(m))
  {
    hide Inv, MarkInv, Undisturbed, Work, Collection, NoneOverlooked, Begun, Propagated, GoesOn, Advances;
    InvLists(m);
    if m.phase == Propagate {
      PropagatePhase(m, m', op.count);
      MarkFacts(m');
      PropagateWork(m, m');
    } else if m.phase == Atomic {
      AtomicWork(m, m');
    } else if m.phase != Pause {
      OpGoesOn(op, m, m');
      LessWork(op, m, m');
    }
  }

  lemma LessWork(op: Op, m: Mach, m': Mach)
    requires GoesOn(op, m, m') && Counts(op) == 1
    ensures Work(m') < Work(m)
  {
    hide Work, Gone;
  }

  lemma PropagatePhase(m: Mach, m': Mach, count: nat)
    requires m.phase == Propagate && Advances(m, m', count)
    ensures Propagated(m, m') && KeepInvariant(m'.phase)
  {
    hide Progress, OnlyForced;
  }

  // As long as a cycle lasts, each step leaves less to be done.
  lemma {:induction false} Alone(ops: seq<Op>, trace: seq<Mach>, n: nat)
    requires Traced(ops, trace) && 0 < n < |trace| && Inv(trace[n])
    requires (forall i :: 0 <= i < n ==> Counts(ops[i]) == 1) && forall i :: 0 < i <= n ==> trace[i].phase != Pause
    ensures trace[n].st.heap.Keys <= trace[0].st.heap.Keys && Work(trace[n]) + n <= CycleWork(|trace[0].st.heap|) + 1
  {
    hide Inv, Performed, ReachedAlive, Work, CycleWork;
    assert Performed(ops[n - 1], trace[n - 1], trace[n - 1 + 1]);
    StepWork(ops[n - 1], trace[n - 1], trace[n]);
    if n == 1 {
      WorkSmall(trace[0]);
      WorkSmall(trace[1]);
      WorkFewer(trace[0].st.heap, trace[1].st.heap);
    } else {
      Alone(ops, trace, n - 1);
    }
  }

  lemma WorkFewer(h: Heap, h': Heap)
    requires h'.Keys <= h.Keys
    ensures CycleWork(|h'|) <= CycleWork(|h|)
  {
    FewerKeys(h, h');
    Times(|h'|, |h|, |h'| + 1);
    Times(|h'| + 1, |h| + 1, |h|);
  }

  lemma WorkLeft(m: Mach)
    ensures m.phase != Pause ==> Work(m) > 0
  {}

  // A run of the collector alone reaches the end of a cycle within a number of steps that
  // is bounded by the size of the heap, unless an atomic step has overlooked something.
  lemma CycleCompletes(ops: seq<Op>, trace: seq<Mach>)
    requires Traced(ops, trace) && Inv(trace[|trace| - 1]) && forall i :: 0 <= i < |trace| - 1 ==> Counts(ops[i]) == 1
    requires |trace| > CycleWork(|trace[0].st.heap|) + 2
    ensures exists n :: 0 < n < |trace| && trace[n].phase == Pause
  {
    hide Inv, Performed, ReachedAlive, Work, CycleWork;
    if forall n :: 0 < n < |trace| ==> trace[n].phase != Pause {
      WorkLeft(trace[|trace| - 1]);
      Alone(ops, trace, |trace| - 1);
      assert false;
    }
  }

  // The place of a state in the cycle.
  function StateNumber(p: GcPhase): nat {
    match p
    case Pause => 0
    case Propagate => 1
    case Atomic => 2
    case InsideAtomic => 3
    case SwpAllGc => 3
    case SwpFinObj => 4
    case SwpToBeFnz => 5
    case SwpEnd => 6
    case CallFin => 7
  }

  // How many states there are to go through to q.
  function Distance(p: GcPhase, q: GcPhase): nat {
    (StateNumber(q) + 8 - StateNumber(p)) % 8
  }

  lemma Nearer(p: GcPhase, p': GcPhase, q: GcPhase)
    requires Follows(p, p') && p != q && q != InsideAtomic
    ensures Distance(p', q) < Distance(p, q) || p' == p
  {}

  // A step gets on to the next state, or leaves less to be done in this one.
  lemma StepNearer(op: Op, m: Mach, m': Mach, q: GcPhase)
    requires Inv(m) && Inv(m') && Performed(op, m, m') && Counts(op) == 1 && m.phase != q && q != InsideAtomic
    ensures Distance(m'.phase, q) < Distance(m.phase, q) || (m'.phase == m.phase && Work(m') < Work(m))
  {
    hide Inv, Undisturbed, Quiet, Work, Collection, NoneOverlooked, Advances, Distance;
    StepWork(op, m, m');
    Nearer(m.phase, m'.phase, q);
  }

  // The operations of the collector by itself.
  function Collecting(n: nat, count: nat): seq<Op> {
    seq(n, _ => Collect(count))
  }

  // luaC_runtilstate: it ends, in one of the states asked for, or when an atomic step has
  // overlooked something.
  method RunUntil(g: GlobalState, target: set<GcPhase>, count: nat) returns (sound: bool, ghost trace: seq<Mach>)
    requires Inv(Snap(g)) && count > 0 && exists q :: q in target && q != InsideAtomic
    modifies g
    ensures Traced(Collecting(|trace|, count), trace) && trace[0] == old(Snap(g)) && trace[|trace| - 1] == Snap(g)
    ensures forall i :: 0 <= i < |trace| - 1 ==> trace[i].phase !in target
    ensures sound <==> Inv(Snap(g))
    ensures if sound then g.gcstate in target else |trace| > 1 && trace[|trace| - 2].phase == Atomic
  {
    hide Inv, Performed, ReachedAlive, Traced, Work;
    ghost var q :| q in target && q != InsideAtomic;
    trace := [Snap(g)];
    sound := true;
    TracedStart(Collecting(1, count), Snap(g));
    while g.gcstate !in target
      invariant |trace| > 0 && Traced(Collecting(|trace|, count), trace) && trace[0] == old(Snap(g)) && trace[|trace| - 1] == Snap(g)
      invariant forall i :: 0 <= i < |trace| - 1 ==> trace[i].phase !in target
      invariant Inv(Snap(g))
      decreases Distance(g.gcstate, q), Work(Snap(g))
    {
      ghost var m := Snap(g);
      sound := Do(g, Collect(count));
      Longer(trace, Snap(g), count);
      trace := trace + [Snap(g)];
      if !sound {
        return;
      }
      StepNearer(Collect(count), m, Snap(g), q);
    }
  }

  // One more step in a run of the collector.
  lemma Longer(trace: seq<Mach>, m: Mach, count: nat)
    requires |trace| > 0 && Traced(Collecting(|trace|, count), trace) && Inv(trace[|trace| - 1])
    requires Performed(Collect(count), trace[|trace| - 1], m)
    ensures Traced(Collecting(|trace + [m]|, count), trace + [m])
  {
    hide Inv, Performed, ReachedAlive;
    InvReached(trace[|trace| - 1]);
  }
}
