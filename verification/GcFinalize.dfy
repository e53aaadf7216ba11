// Finalization: taking an object off 'tobefnz', and the collector's single step.

module GcFinalize {
  import opened Common
  import opened GcHeap
  import opened GcInvariants
  import opened GcState
  import opened GcSteps
  import opened GcMark
  import opened GcAtomic
  import opened GcConverge
  import opened GcMachine
  import opened GcSweep
  import opened GcCycle

  predicate IsSweepPhase(p: GcPhase) {
    Sweeps(p) || p == SwpEnd
  }

  // Where the sweep position is after the first object of 'tobefnz' has moved to the
  // head of 'allgc'. A position is the 'next' field of the object before it, so it
  // stays with its list, except position 1 of 'tobefnz': that field belongs to the
  // object that moves, and the sweep goes on in 'allgc', which has been swept. What is
  // left of 'tobefnz' is then not swept in this cycle.
  function PosAfterPop(p: GcPhase, sweepgc: Option<nat>): Option<nat> {
    if sweepgc.None? || sweepgc.value == 0 then sweepgc
    else if p == SwpAllGc then Some(sweepgc.value + 1)
    else if p != SwpToBeFnz then sweepgc
    else if sweepgc.value == 1 then None
    else Some(sweepgc.value - 1)
  }

  // The objects that the sweep then misses: they stay marked.
  ghost function Missed(m: Mach): set<Ref>
    requires m.tobefnz != []
  {
    if m.phase == SwpToBeFnz && m.sweepgc == Some(1)
    then set r | r in m.tobefnz[1..] && r in m.st.color && m.st.color[r] != White(m.st.white)
    else {}
  }

  ghost function Popped(m: Mach): Mach
    requires m.tobefnz != []
  {
    var o := m.tobefnz[0];
    var st := if IsSweepPhase(m.phase) then Whiten(m.st, o) else m.st;
    m.(tobefnz := m.tobefnz[1..], allgc := [o] + m.allgc, sweepgc := PosAfterPop(m.phase, m.sweepgc),
       st := st.(stuck := st.stuck + Missed(m)))
  }

  // The sweep position is in the object to be finalized, and an object behind it has not
  // been swept (and was not stuck before).
  ghost predicate LosesPosition(m: Mach) {
    && m.phase == SwpToBeFnz && m.sweepgc == Some(1) && m.tobefnz != []
    && exists r :: r in m.tobefnz[1..] && r !in m.st.stuck && r in m.st.color && m.st.color[r] != White(m.st.white)
  }

  // Taking an object off the list without giving up the sweep of any other.
  ghost function Unmissed(m: Mach): Mach
    requires m.tobefnz != []
  {
    Popped(m).(st := Popped(m).st.(stuck := Popped(m).st.stuck - (Missed(m) - m.st.stuck)))
  }

  lemma PopPartition(m: Mach)
    requires Partition(m) && m.tobefnz != []
    ensures Partition(Popped(m))
    ensures var o := m.tobefnz[0];
      o in m.st.heap && o !in m.st.fixed && o != m.mainthread && o !in m.tobefnz[1..] && o !in m.allgc && o !in m.finobj
  {
    assert m.tobefnz == [m.tobefnz[0]] + m.tobefnz[1..];
    assert Without(m.tobefnz, 0) == m.tobefnz[1..];
    Unique(m, ToBeFnz, 0);
  }

  lemma PopRoots(m: Mach)
    requires RootsLive(m) && m.tobefnz != [] && Gone(Popped(m).st) == Gone(m.st) && Popped(m).st.heap == m.st.heap
    ensures RootsLive(Popped(m))
  {}

  // What has been swept still is.
  lemma PopKeeps(m: Mach, l: seq<Ref>, n: nat)
    requires m.tobefnz != [] && SweptTo(m.st, l, n)
    ensures SweptTo(Popped(m).st, l, n)
  {}

  lemma PopHead(m: Mach, n: nat)
    requires m.tobefnz != [] && SweptTo(m.st, m.allgc, n)
    requires IsSweepPhase(m.phase) || SweptTo(m.st, m.tobefnz, 1)
    ensures SweptTo(Popped(m).st, Popped(m).allgc, n + 1)
  {
    var o, l := m.tobefnz[0], m.allgc;
    PopKeeps(m, l, n);
    forall i | 0 < i < |[o] + l| ensures ([o] + l)[i] == l[i - 1] {}
  }

  lemma PopTail(m: Mach, n: nat)
    requires m.tobefnz != [] && SweptTo(m.st, m.tobefnz, n + 1)
    ensures SweptTo(Popped(m).st, m.tobefnz[1..], n)
  {
    forall i | 0 <= i < |m.tobefnz[1..]| ensures m.tobefnz[1..][i] == m.tobefnz[i + 1] {}
  }

  // The rest of the list, when its sweep has been cut short.
  lemma PopMissed(m: Mach)
    requires m.tobefnz != [] && m.phase == SwpToBeFnz && m.sweepgc == Some(1)
    requires Finalizable(m.st.heap, m.tobefnz) && m.st.color.Keys == m.st.heap.Keys
    ensures SweptTo(Popped(m).st, m.tobefnz[1..], |m.tobefnz[1..]|)
  {
    var rest := m.tobefnz[1..];
    forall i | 0 <= i < |rest| ensures rest[i] in rest && rest[i] in m.st.color {
      assert rest[i] in m.tobefnz;
    }
  }

  lemma PopSwept(m: Mach)
    requires Swept(m) && m.tobefnz != [] && !KeepInvariant(m.phase) && m.phase != InsideAtomic
    requires Finalizable(m.st.heap, m.tobefnz) && m.st.color.Keys == m.st.heap.Keys && m.mainthread !in m.tobefnz
    ensures Swept(Popped(m))
  {
    hide SweptTo, Missed;
    match m.phase
    case SwpAllGc =>
      PopHead(m, Pos(m.sweepgc, m.allgc));
    case SwpFinObj =>
      PopHead(m, |m.allgc|);
      PopKeeps(m, m.finobj, Pos(m.sweepgc, m.finobj));
    case SwpToBeFnz =>
      PopHead(m, |m.allgc|);
      PopKeeps(m, m.finobj, |m.finobj|);
      PopPosition(m);
    case _ =>
      PopLists(m);
  }

  lemma PopPosition(m: Mach)
    requires Swept(m) && m.tobefnz != [] && m.phase == SwpToBeFnz
    requires Finalizable(m.st.heap, m.tobefnz) && m.st.color.Keys == m.st.heap.Keys
    ensures var m' := Popped(m);
      Pos(m'.sweepgc, m'.tobefnz) <= |m'.tobefnz| && SweptTo(m'.st, m'.tobefnz, Pos(m'.sweepgc, m'.tobefnz))
  {
    hide SweptTo, Missed;
    if m.sweepgc == Some(1) {
      PopMissed(m);
    } else if m.sweepgc == Some(0) {
      NotSwept(Popped(m).st, m.tobefnz[1..]);
    } else {
      PopTail(m, Pos(m.sweepgc, m.tobefnz) - 1);
    }
  }

  lemma NotSwept(s: St, l: seq<Ref>)
    ensures SweptTo(s, l, 0)
  {}

  lemma PopLists(m: Mach)
    requires Swept(m) && m.tobefnz != [] && !KeepInvariant(m.phase) && !Sweeps(m.phase) && m.mainthread !in m.tobefnz
    ensures Swept(Popped(m))
  {
    assert m.tobefnz[0] in m.tobefnz;
    assert SweptTo(m.st, m.tobefnz, 1);
    hide SweptTo;
    PopHead(m, |m.allgc|);
    PopKeeps(m, m.finobj, |m.finobj|);
    PopTail(m, |m.tobefnz| - 1);
  }

  lemma PopMark(m: Mach)
    requires KeepInvariant(m.phase) && Inv(m) && m.tobefnz != []
    ensures Inv(Popped(m))
  {
    hide Inv, RootsLive, Partition, MarkInv;
    InvMark(m);
    PopPartition(m);
    assert Popped(m).st == m.st;
    PopRoots(m);
    InvMark(Popped(m));
  }

  // Objects become stuck that are not white.
  lemma StuckMore(s: St, more: set<Ref>)
    requires RestOk(s) && Sound(s)
    requires forall r :: r in more ==> r in s.heap && (s.heap[r].Table? || s.heap[r].Udata?) && !IsWhite(s.color, r)
    ensures RestOk(s.(stuck := s.stuck + more)) && Sound(s.(stuck := s.stuck + more)) && Gone(s.(stuck := s.stuck + more)) == Gone(s)
  {
    assert Gone(s.(stuck := s.stuck + more)) == Gone(s);
    hide HeapWF, Clear;
  }

  lemma MissedMarked(m: Mach, r: Ref)
    requires RootsLive(m) && m.tobefnz != [] && r in Missed(m)
    ensures r in m.st.heap && (m.st.heap[r].Table? || m.st.heap[r].Udata?) && !IsWhite(m.st.color, r)
    ensures r != m.tobefnz[0] || r in m.tobefnz[1..]
  {
    assert r in m.tobefnz;
    var i :| 0 <= i < |m.tobefnz| && m.tobefnz[i] == r;
    assert m.tobefnz[i] !in Gone(m.st);
  }

  lemma PopRest(m: Mach)
    requires RestOk(m.st) && Sound(m.st) && RootsLive(m) && Partition(m) && m.tobefnz != []
    ensures RestOk(Popped(m).st) && Sound(Popped(m).st) && RootsLive(Popped(m))
  {
    hide RestOk, RootsLive, Partition, Sound;
    PopPartition(m);
    PopAlive(m);
    var o := m.tobefnz[0];
    var st := if IsSweepPhase(m.phase) then Whiten(m.st, o) else m.st;
    if IsSweepPhase(m.phase) {
      WhitenRest(m.st, o);
      WhitenSound(m.st, o);
    }
    forall r | r in Missed(m)
      ensures r in st.heap && (st.heap[r].Table? || st.heap[r].Udata?) && !IsWhite(st.color, r)
    {
      MissedMarked(m, r);
    }
    StuckMore(st, Missed(m));
    PopRoots(m);
  }

  lemma PopAlive(m: Mach)
    requires RootsLive(m) && m.tobefnz != []
    ensures m.tobefnz[0] !in Gone(m.st)
  {}

  // Taking an object off the list keeps the invariant, but objects may get stuck.
  lemma PopInv(m: Mach)
    requires Inv(m) && m.tobefnz != []
    ensures Inv(Popped(m))
  {
    hide Inv, RootsLive, Partition, MarkPhase, Swept, RestOk, Sound;
    if KeepInvariant(m.phase) {
      PopMark(m);
    } else {
      InvRest(m);
      PopPartition(m);
      PopRest(m);
      PopKinds(m);
      PopMain(m);
      PopSwept(m);
      InvRest(Popped(m));
    }
  }

  // The object that is missed was not the one taken off.
  lemma MissedBehind(m: Mach, r: Ref)
    requires Partition(m) && m.tobefnz != [] && r in m.tobefnz[1..]
    ensures r != m.tobefnz[0]
  {
    PopPartition(m);
  }

  // It keeps the invariant without any object getting stuck, that is, everything on the list
  // will have been swept in this cycle, if and only if the sweep position is not lost.
  lemma PopKeepsSweep(m: Mach)
    requires Inv(m) && m.tobefnz != []
    ensures Inv(Unmissed(m)) <==> !LosesPosition(m)
    ensures !LosesPosition(m) ==> Popped(m).st.stuck <= m.st.stuck
  {
    hide Inv, RootsLive, Partition, MarkPhase, RestOk, Sound;
    PopInv(m);
    if LosesPosition(m) {
      InvRest(m);
      InvRest(Unmissed(m));
      var i :| 0 <= i < |m.tobefnz[1..]| && m.tobefnz[1..][i] !in m.st.stuck && m.tobefnz[1..][i] in m.st.color && m.st.color[m.tobefnz[1..][i]] != White(m.st.white);
      MissedBehind(m, m.tobefnz[1..][i]);
    } else {
      forall r | r in Missed(m) ensures r in m.st.stuck {}
      assert Unmissed(m) == Popped(m);
    }
  }

  lemma PopMain(m: Mach)
    requires RootsLive(m)
    ensures m.mainthread !in m.tobefnz
  {}

  lemma PopKinds(m: Mach)
    requires RootsLive(m) && RestOk(m.st)
    ensures Finalizable(m.st.heap, m.tobefnz) && m.st.color.Keys == m.st.heap.Keys
  {}

  method MakeWhite(g: GlobalState, o: Ref, sweeping: bool)
    modifies g`color, g`stuck
    ensures g.View() == if sweeping then Whiten(old(g.View()), o) else old(g.View())
  {
    if sweeping { WhitenObject(g, o); }
  }

  // udata2finalize: the object goes back to 'allgc'; its finalizer may be called. If the
  // sweep position is lost, the objects that follow are stuck.
  method Udata2Finalize(g: GlobalState) returns (o: Ref)
    requires g.tobefnz != [] && Inv(Snap(g))
    modifies g`tobefnz, g`allgc, g`color, g`sweepgc, g`stuck
    ensures o == old(g.tobefnz[0]) && Snap(g) == Popped(old(Snap(g)))
    ensures Inv(Snap(g))
  {
    hide Inv, LosesPosition, Missed, PosAfterPop, IsSweepPhase;
    ghost var m := Snap(g);
    PopInv(m);
    o := g.tobefnz[0];
    MakeWhite(g, o, IsSweepPhase(g.gcstate));
    g.tobefnz := g.tobefnz[1..];
    g.allgc := [o] + g.allgc;
    g.sweepgc := PosAfterPop(g.gcstate, g.sweepgc);
    g.stuck := g.stuck + Missed(m);
  }

  ghost function CalledFin(m: Mach): Mach {
    if m.tobefnz == [] then m.(phase := Pause) else Popped(m)
  }

  // GCScallfin: one more finalizer to call, or the cycle is over.
  method CallFinStep(g: GlobalState) returns (finalize: Option<Ref>)
    requires g.gcstate == CallFin && Inv(Snap(g))
    modifies g`tobefnz, g`allgc, g`color, g`sweepgc, g`gcstate, g`stuck
    ensures finalize == if old(g.tobefnz) == [] then None else Some(old(g.tobefnz)[0])
    ensures Snap(g) == CalledFin(old(Snap(g)))
    ensures g.gcstate == (if finalize.Some? then CallFin else Pause) && g.color == old(g.color) && g.stuck == old(g.stuck)
    ensures Inv(Snap(g))
  {
    hide Inv;
    if g.tobefnz != [] {
      var o := Udata2Finalize(g);
      finalize := Some(o);
    } else {
      PauseInv(Snap(g));
      g.gcstate := Pause;
      finalize := None;
    }
  }

  lemma PauseInv(m: Mach)
    requires m.phase == CallFin && Inv(m)
    ensures Inv(m.(phase := Pause))
  {
    hide Inv, MarkPhase, RestOk;
    InvRest(m);
    InvRest(m.(phase := Pause));
  }

  // ------------------------------------------------------------------- singlestep

  // An object is alive after a step, and has lost no more than it may: entries of tables
  // with a key or a value in W, keys of emptied entries, an unused cache or stack slot.
  ghost predicate Lasts(m: Mach, m': Mach, r: Ref, W: iset<Ref>) {
    && r in m.st.heap && r in m'.st.heap && r !in Gone(m'.st) && ObjTrim(m.st.heap[r], m'.st.heap[r])
    && (m.st.heap[r].Table? ==> TableLoses(m.st.heap, W, m.st.heap[r], m'.st.heap[r]))
  }

  // Everything that is alive lasts, and tables lose nothing.
  ghost predicate Undisturbed(m: Mach, m': Mach) {
    forall r :: r in m.st.heap && r !in Gone(m.st) ==> Lasts(m, m', r, iset{})
  }

  // The order of the states.
  predicate Follows(p: GcPhase, p': GcPhase) {
    match p
    case Pause => p' == Propagate
    case Propagate => p' == Propagate || p' == Atomic
    case Atomic => p' == SwpAllGc
    case InsideAtomic => false
    case SwpEnd => p' == CallFin
    case CallFin => p' == CallFin || p' == Pause
    case _ => p' == p || p' == NextSweep(p)
  }

  // No object appears, none gets stuck. A cycle begins with an empty list 'allweak', and
  // propagation puts all-weak tables in it only.
  ghost predicate Quiet(m: Mach, m': Mach) {
    && m'.st.heap.Keys <= m.st.heap.Keys && (forall r :: r in m'.st.heap ==> ObjTrim(m.st.heap[r], m'.st.heap[r]))
    && m'.st.stuck <= m.st.stuck
    && (m.phase == Pause ==> m'.st.allweak == []) && (m.phase == Propagate && ModesKept(m.st) ==> ModesKept(m'.st))
  }

  // Each step gets on with the cycle; 'count' is how many objects a sweep step handles.
  ghost predicate Advances(m: Mach, m': Mach, count: nat) {
    match m.phase
    case Pause => Begun(m, m')
    case Propagate => Propagated(m, m')
    case Atomic => ToFinalize(m, m')
    case InsideAtomic => false
    case SwpEnd => m' == Ended(m)
    case CallFin => m' == CalledFin(m)
    case _ => Sweeping(m, m') && SweptBy(m, m', count)
  }

  // The object whose finalizer a step calls.
  ghost function Called(m: Mach): Option<Ref> {
    if m.phase == CallFin && m.tobefnz != [] then Some(m.tobefnz[0]) else None
  }

  // A step of the collector: the atomic step collects, the others disturb nothing.
  ghost predicate Stepped(m: Mach, m': Mach) {
    && SameRoots(m, m') && Follows(m.phase, m'.phase)
    && if m.phase == Atomic then
         exists s, b :: Collection(m, s, m', b) && (Inv(m') <==> NoneOverlooked(s))
       else Undisturbed(m, m') && Quiet(m, m') && Inv(m')
  }

  lemma SameHeapLasts(m: Mach, m': Mach)
    requires m'.st.heap == m.st.heap && Gone(m'.st) <= Gone(m.st)
    ensures Undisturbed(m, m')
    ensures m'.st.stuck == m.st.stuck && m.phase != Propagate && (m.phase == Pause ==> m'.st.allweak == []) ==> Quiet(m, m')
  {}

  lemma SweepingLasts(m: Mach, m': Mach)
    requires Sweeping(m, m')
    ensures Undisturbed(m, m') && (!KeepInvariant(m.phase) && m.phase != Pause ==> Quiet(m, m'))
  {
    forall r | r in m.st.heap && r !in Gone(m.st) ensures Lasts(m, m', r, iset{}) {
      assert r !in Gone(m'.st);
    }
  }

  lemma ProgressLasts(m: Mach, m': Mach)
    requires Progress(m.st, m'.st) && !m.st.clearing && Gone(m'.st) == Missing(m'.st.heap)
    ensures Undisturbed(m, m') && (m.phase != Pause ==> Quiet(m, m'))
  {}

  lemma PropagatedLasts(m: Mach, m': Mach)
    requires Propagated(m, m') && Inv(m') && MarkInv(m.st, {}) && m.phase == Propagate && !m.st.clearing
    ensures Undisturbed(m, m') && Quiet(m, m') && SameRoots(m, m') && Follows(m.phase, m'.phase)
  {
    hide Inv, Progress, MarkInv, OnlyForced, Undisturbed, Quiet;
    MarkFacts(m');
    MarkSound(m'.st);
    ProgressLasts(m, m');
  }

  // What has survived the step has lost no more than it may.
  lemma CollectionLasts(m: Mach, s: St, m': Mach, b: set<Ref>, r: Ref)
    requires Collection(m, s, m', b) && r in m.st.heap && r !in Gone(m'.st)
    ensures Lasts(m, m', r, Outside(m.st, b))
  {
    assert ObjTrim(m.st.heap[r], s.heap[r]);
    assert m.st.heap[r].Table? ==> TableLoses(m.st.heap, Outside(m.st, b), m.st.heap[r], s.heap[r]);
  }

  // What a closed set does not contain is collected, unless it is a string that is held.
  lemma CollectionDrops(m: Mach, s: St, m': Mach, b: set<Ref>, keep: set<Ref>, r: Ref)
    requires Collection(m, s, m', b) && ClosedSet(m.st, WideBase(m), keep) && r in m.st.heap && r !in keep && Unheld(m.st.heap, r)
    ensures r in Gone(m'.st)
  {
    CollectionHeap(m, s, m', b);
    hide Collection, ClosedSet, WideBase;
    if r in Marked(s.color) {
      LeastBelow(m.st, WideBase(m), keep);
      var t :| OriginIn(Entered(m).st, b, s, t, r);
      OriginHolds(Entered(m).st, b, s, t, r);
      assert false;
    }
  }

  lemma CollectionHeap(m: Mach, s: St, m': Mach, b: set<Ref>)
    requires Collection(m, s, m', b)
    ensures s.color.Keys == m.st.heap.Keys && Gone(m'.st) == Missing(m.st.heap) + Whites(s.color)
    ensures Exact(Entered(m).st, b, s, Least(m.st, WideBase(m)))
  {
    hide Reached, LosesOnly, Emptied, Finished, TablesClear, Exact;
  }

  lemma OriginHolds(s0: St, b: set<Ref>, s: St, t: Ref, r: Ref)
    requires OriginIn(s0, b, s, t, r)
    ensures HoldsString(s0.heap, t, r)
  {
    var i :| 0 <= i < |Nodes(s0.heap, t)| && OriginAt(s0.heap, Outside(s0, b), Whites(s.color), t in b, Nodes(s0.heap, t)[i], r);
    hide ValueLost, Outside;
  }

  // singlestep: one step of the collector, in whatever state it is.
  method SingleStep(g: GlobalState, count: nat) returns (finalize: Option<Ref>)
    requires Inv(Snap(g))
    modifies g
    ensures Stepped(old(Snap(g)), Snap(g)) && Advances(old(Snap(g)), Snap(g), count) && finalize == Called(old(Snap(g)))
    ensures old(g.gcstate) == Atomic ==> Orderly(Snap(g))
  {
    hide Inv, Undisturbed, Quiet, Collection, NoneOverlooked, Orderly, Begun, Propagated, Started, FewRoots, Gone, ToFinalize, Sweeping, SweptBy;
    finalize := None;
    if g.gcstate == Pause {
      PauseStep(g);
      SameHeapLasts(old(Snap(g)), Snap(g));
    } else if KeepInvariant(g.gcstate) {
      MarkStep(g);
    } else {
      finalize := SweepOrFinish(g, count);
    }
  }

  // GCSpropagate and GCSatomic.
  method MarkStep(g: GlobalState)
    requires KeepInvariant(g.gcstate) && Inv(Snap(g))
    modifies g
    ensures Stepped(old(Snap(g)), Snap(g))
    ensures if old(g.gcstate) == Propagate then Propagated(old(Snap(g)), Snap(g)) else ToFinalize(old(Snap(g)), Snap(g)) && Orderly(Snap(g))
  {
    hide Inv, Undisturbed, Quiet, Collection, NoneOverlooked, Orderly, Propagated, MarkInv, ToFinalize;
    if g.gcstate == Propagate {
      MarkFacts(Snap(g));
      PropagateStep(g);
      PropagatedLasts(old(Snap(g)), Snap(g));
    } else {
      ghost var b, s;
      b, s := AtomicStep(g);
    }
  }

  method SweepOrFinish(g: GlobalState, count: nat) returns (finalize: Option<Ref>)
    requires !KeepInvariant(g.gcstate) && g.gcstate != Pause && Inv(Snap(g))
    modifies g
    ensures Undisturbed(old(Snap(g)), Snap(g)) && Quiet(old(Snap(g)), Snap(g))
    ensures SameRoots(old(Snap(g)), Snap(g)) && Follows(old(g.gcstate), g.gcstate)
    ensures Advances(old(Snap(g)), Snap(g), count) && finalize == Called(old(Snap(g)))
    ensures Inv(Snap(g))
  {
    hide Inv, Undisturbed, Quiet, Sweeping, SweptBy, Ended;
    ghost var m := Snap(g);
    NeverInside(m);
    finalize := None;
    if g.gcstate == CallFin {
      finalize := CallFinStep(g);
      CallFinGone(m, Snap(g));
      SameHeapLasts(m, Snap(g));
    } else {
      SweepOrEnd(g, count);
    }
  }

  method SweepOrEnd(g: GlobalState, count: nat)
    requires (Sweeps(g.gcstate) || g.gcstate == SwpEnd) && Inv(Snap(g))
    modifies g
    ensures Undisturbed(old(Snap(g)), Snap(g)) && Quiet(old(Snap(g)), Snap(g))
    ensures SameRoots(old(Snap(g)), Snap(g)) && Follows(old(g.gcstate), g.gcstate)
    ensures Advances(old(Snap(g)), Snap(g), count)
    ensures Inv(Snap(g))
  {
    hide Inv, Undisturbed, Quiet, Orderly, Sweeping, Sound, SweptBy, NextSweep;
    ghost var m := Snap(g);
    InvRest(m);
    if g.gcstate == SwpEnd {
      FinishSweep(g);
    } else {
      SweepStep(g, count);
      SweptPhase(m, Snap(g), count);
    }
    SweptInv(m, Snap(g));
    SweepingLasts(m, Snap(g));
    SweepingRoots(m, Snap(g));
  }

  lemma SweptPhase(m: Mach, m': Mach, count: nat)
    requires SweptBy(m, m', count)
    ensures m'.phase == m.phase || m'.phase == NextSweep(m.phase)
  {
    hide SweptLists;
  }

  lemma CallFinGone(m: Mach, m': Mach)
    requires m'.st.heap == m.st.heap && m'.st.color == m.st.color && m'.st.white == m.st.white
    ensures Gone(m'.st) == Gone(m.st)
  {}

  lemma SweptInv(m: Mach, m': Mach)
    requires Orderly(m) && Sound(m.st) && Sweeping(m, m') && Orderly(m')
    ensures Inv(m')
  {
    OrderlyWF(m);
    SweepingSound(m, m');
    hide Orderly, Sound, Inv;
    OrderlyPhase(m');
    InvRest(m');
  }

  lemma OrderlyWF(m: Mach)
    requires Orderly(m)
    ensures HeapWF(m.st.heap, m.st.upv)
  {}

  lemma NeverInside(m: Mach)
    requires Inv(m)
    ensures m.phase != InsideAtomic
  {}
}
