// Whole runs: the program and the collector take turns in any order, from the initial
// state on. Nothing that can be reached is dead or freed, until an atomic step has
// overlooked a reference.

module GcRun {
  import opened Common
  import opened GcHeap
  import opened GcState
  import opened GcMark
  import opened GcAtomic
  import opened GcMachine
  import opened GcSweep
  import opened GcCycle
  import opened GcFinalize
  import opened GcStore
  import opened GcMutator
  import opened GcUpvalues
  import opened GcObjects
  import opened GcEffects

  method NewState(main: Ref, size: nat, types: nat) returns (g: GlobalState)
    ensures fresh(g) && Inv(Snap(g)) && g.mainthread == g.running == main && g.gcstate == Pause && g.registry == Nil && g.mt == seq(types, _ => None)
    ensures g.heap == map[main := Thread(seq(size, _ => Nil), 0, [])] && g.color == map[main := White(false)] && !g.currentwhite
    ensures g.allgc == g.finobj == g.tobefnz == g.fixedgc == [] && g.stuck == {} && g.upv == map[] && g.bound == {main}
  {
    g := new GlobalState(main, size, types);
    InitialInv(Snap(g));
  }

  lemma InitialInv(m: Mach)
    requires m.st.heap.Keys == m.st.color.Keys == {m.mainthread} && m.st.bound == {m.mainthread}
    requires IsThread(m.st.heap, m.mainthread) && m.st.upv == map[] && m.st.color[m.mainthread] == White(m.st.white)
    requires var t := m.st.heap[m.mainthread]; t.openupval == [] && t.top == 0 && forall i :: 0 <= i < |t.stack| ==> t.stack[i] == Nil
    requires m.phase == Pause && m.allgc == m.finobj == m.tobefnz == m.st.fixed == m.st.twups == []
    requires m.sweepgc == None && m.running == m.mainthread && m.registry == Nil && m.st.stuck == {}
    requires (forall i :: 0 <= i < |m.mt| ==> m.mt[i] == None) && !m.st.inside && !m.st.remarked && !m.st.clearing
    ensures Inv(m)
  {
    InvRest(m);
    hide Inv;
    assert multiset(m.st.heap.Keys) == multiset{m.mainthread};
    assert m.mainthread !in Gone(m.st);
    assert RestOk(m.st);
  }

  // ------------------------------------------------------ checking the heap as it is

  predicate CanAll(heap: Heap, color: Colors, white: bool, vs: seq<Value>) {
    forall i :: 0 <= i < |vs| ==> Can(heap, color, white, vs[i])
  }

  // No reference in the object is to a dead or freed object.
  predicate IntactObject(heap: Heap, upv: Upvals, color: Colors, white: bool, o: Object) {
    match o
    case Str => true
    case Udata(mt, uv) => CanOpt(heap, color, white, mt) && Can(heap, color, white, uv)
    case Table(mt, _, arr, nodes) =>
      && CanOpt(heap, color, white, mt) && CanAll(heap, color, white, arr)
      && forall i :: 0 <= i < |nodes| ==>
           (nodes[i].dead || Can(heap, color, white, nodes[i].key)) && Can(heap, color, white, nodes[i].val)
    case LClosure(p, ids) =>
      && CanOpt(heap, color, white, p)
      && forall i :: 0 <= i < |ids| && ids[i].Some? ==> Can(heap, color, white, UvValue(heap, upv, ids[i].value))
    case CClosure(vs) => CanAll(heap, color, white, vs)
    case Thread(stack, _, _) => CanAll(heap, color, white, stack)
    case Proto(k, parts, cache) =>
      && CanAll(heap, color, white, k) && CanOpt(heap, color, white, cache)
      && forall i :: 0 <= i < |parts| ==> CanOpt(heap, color, white, parts[i])
  }

  predicate Intact(heap: Heap, upv: Upvals, color: Colors, white: bool) {
    forall r :: r in heap && Alive(heap, color, white, r) ==> IntactObject(heap, upv, color, white, heap[r])
  }

  lemma AllNames(s: St)
    ensures forall r :: Alive(s.heap, s.color, s.white, r) ==> r in s.heap && r !in Gone(s)
  {}

  lemma IntactClear(s: St, o: Object)
    ensures IntactObject(s.heap, s.upv, s.color, s.white, o) <==> Clear(s.heap, s.upv, Gone(s), o)
  {
    hide Alive, Gone;
    forall r ensures Alive(s.heap, s.color, s.white, r) <==> r !in Gone(s) { AliveNames(s, r); }
    match o
    case Table(_, _, arr, nodes) =>
      assert CanAll(s.heap, s.color, s.white, arr) <==> NoneIn(Gone(s), arr);
      forall i | 0 <= i < |nodes|
        ensures (nodes[i].dead || Can(s.heap, s.color, s.white, nodes[i].key)) && Can(s.heap, s.color, s.white, nodes[i].val)
                <==> NodeClear(Gone(s), nodes[i])
      {}
    case _ =>
  }

  // The check finds out whether the heap is sound.
  lemma {:induction false} IntactSound(s: St)
    ensures Intact(s.heap, s.upv, s.color, s.white) <==> Sound(s)
  {
    hide IntactObject, Clear, Alive, Gone;
    forall r
      ensures Alive(s.heap, s.color, s.white, r) <==> r !in Gone(s)
      ensures r in s.heap ==>
                (IntactObject(s.heap, s.upv, s.color, s.white, s.heap[r]) <==> Clear(s.heap, s.upv, Gone(s), s.heap[r]))
    {
      AliveNames(s, r);
      if r in s.heap { IntactClear(s, s.heap[r]); }
    }
  }

  // ------------------------------------------------------------------- the operations

  // Each operation is done if its arguments are such that the program may do it.
  method DoTable(g: GlobalState, op: TableOp)
    requires Inv(Snap(g))
    modifies g
    ensures TableDone(op, old(Snap(g)), Snap(g)) && Inv(Snap(g))
  {
    hide Inv, Moved, Becomes;
    if MayTable(op, g.heap, g.color, g.currentwhite) {
      match op {
        case Element(h, i, v) => SetArray(g, h, i, v);
        case Entry(h, i, v) => SetNode(g, h, i, v);
        case NewKey(h, i, key) => InsertKey(g, h, i, key);
        case Rehash(h, arr, nodes) =>
          UnbarredPut(Snap(g), h, g.heap[h].(arr := arr, nodes := nodes));
          Rearrange(g, h, arr, nodes);
        case ChangeMode(h, mode) =>
          UnbarredPut(Snap(g), h, g.heap[h].(mode := mode));
          SetMode(g, h, mode);
        case Metatable(h, mt, mode) => SetMetatable(g, h, mt, mode);
      }
    }
  }

  // A store that needs no barrier.
  lemma UnbarredPut(m: Mach, r: Ref, o': Object)
    requires r in m.st.heap
    ensures Becomes(m, Put(m, r, o'), m.st.heap[r := o'], m.st.upv, m.st.stuck, {})
  {
    hide Becomes;
    BarredReflexive(m);
    PutAfter(m, m, r, o', {});
  }

  method DoField(g: GlobalState, op: FieldOp)
    requires Inv(Snap(g))
    modifies g
    ensures FieldDone(op, old(Snap(g)), Snap(g)) && Inv(Snap(g))
  {
    hide Inv, Becomes;
    if MayField(op, g.heap, g.upv, g.color, g.currentwhite) {
      ghost var black := op.o in g.color && g.color[op.o].Black?;
      UnbarredPut(Snap(g), op.o, FieldAfter(op, g.heap[op.o], black));
      match op {
        case UserValue(o, v) => SetUserValue(g, o, v);
        case CUpvalue(o, i, v) => SetCUpvalue(g, o, i, v);
        case Constant(o, i, v) => SetConstant(g, o, i, v);
        case Part(o, i, r) => SetPart(g, o, i, r);
        case Cache(o, cl) =>
          assert g.heap[o := g.heap[o]] == g.heap;
          SetCache(g, o, cl);
        case Slot(o, i, v) => SetStack(g, o, i, v);
        case Stack(o, size, top) => Resize(g, o, size, top);
      }
    }
  }

  method DoUpval(g: GlobalState, op: UpvalOp)
    requires Inv(Snap(g))
    modifies g
    ensures UpvalDone(op, old(Snap(g)), Snap(g)) && Inv(Snap(g))
  {
    hide Inv, Becomes, HasUpval, Added, SplitAt, ClosedTo;
    if MayUpval(op, g.heap, g.upv, g.color, g.currentwhite) {
      match op {
        case Find(th, level, uv) =>
          var _ := FindUpval(g, th, level, uv);
        case Close(th, level) =>
          ghost var m := Snap(g);
          ghost var n := CloseUpvals(g, th, level);
          assert SplitAt(OpenUpvals(m.st.heap, th), m.st.upv, level, n) && ClosedTo(m, Snap(g), th, n);
        case Assign(id, v) => SetUpval(g, id, v);
        case _ => DoClosure(g, op);
      }
    }
  }

  method DoClosure(g: GlobalState, op: UpvalOp)
    requires op.Join? || op.Capture? || op.NewClosed? || op.Prototype?
    requires MayUpval(op, g.heap, g.upv, g.color, g.currentwhite) && Inv(Snap(g))
    modifies g
    ensures UpvalDone(op, old(Snap(g)), Snap(g)) && Inv(Snap(g))
  {
    hide Inv, Becomes, HasUpval, Added, SplitAt, ClosedTo, Gone, Alive, InSlot;
    ghost var m := Snap(g);
    AllNames(g.View());
    match op {
      case Join(cl, i, id) => JoinUpval(g, cl, i, id);
      case Capture(cl, i, id) =>
        UnbarredPut(m, cl, g.heap[cl].(upvals := g.heap[cl].upvals[i := Some(id)]));
        InitUpval(g, cl, i, id);
      case NewClosed(id) =>
        BarredReflexive(m);
        UpvalsAfter(m, m, g.upv[id := Closed(Nil)], {});
        InitUpvals(g, id);
      case Prototype(cl, p) =>
        UnbarredPut(m, cl, g.heap[cl].(proto := Some(p)));
        InitProto(g, cl, p);
    }
  }

  method DoRoot(g: GlobalState, op: RootOp)
    requires Inv(Snap(g))
    modifies g
    ensures RootDone(op, old(Snap(g)), Snap(g)) && Inv(Snap(g))
  {
    hide Inv, Relisted, BornIn, Fixed, Popped, Whiten, Dead, Gone, Alive, Blank;
    AllNames(g.View());
    if MayRoot(op, g.heap, g.color, g.currentwhite, g.gcstate, g.allgc, g.tobefnz, |g.mt|) {
      match op {
        case TypeMetatable(i, mt) => SetTypeMetatable(g, i, mt);
        case Registry(v) => SetRegistry(g, v);
        case Switch(th) => Resume(g, th);
        case Finalize => var _ := Udata2Finalize(g);
        case _ => DoObject(g, op);
      }
    }
  }

  method DoObject(g: GlobalState, op: RootOp)
    requires op.Create? || op.Intern? || op.FixString? || op.Finalizer?
    requires MayRoot(op, g.heap, g.color, g.currentwhite, g.gcstate, g.allgc, g.tobefnz, |g.mt|) && Inv(Snap(g))
    modifies g
    ensures RootDone(op, old(Snap(g)), Snap(g)) && Inv(Snap(g))
  {
    hide Inv, Relisted, BornIn, Fixed, Popped, Whiten, Dead;
    match op {
      case Create(r, o) =>
        BlankNewborn(g.View(), r, o);
        NewObject(g, r, o);
      case Intern(r) => InternHit(g, r);
      case FixString(r) => Fix(g, r);
      case Finalizer(r) => CheckFinalizer(g, r);
    }
  }

  // A full collection begins while marking is going on.
  method DoRestart(g: GlobalState)
    requires Inv(Snap(g))
    modifies g
    ensures if KeepInvariant(old(g.gcstate)) then Abandoned(old(Snap(g)), Snap(g)) else Snap(g) == old(Snap(g))
    ensures Inv(Snap(g))
  {
    hide Inv, Sweeping, Abandoned, Gone;
    if KeepInvariant(g.gcstate) {
      ghost var m := Snap(g);
      AbandonMarking(g);
      NothingFreed(m, Snap(g));
    }
  }

  lemma NothingFreed(m: Mach, m': Mach)
    requires m'.phase == SwpAllGc && Sweeping(m, m') && m'.st.heap.Keys == m.st.heap.Keys
    ensures Abandoned(m, m')
  {
    assert m'.st.heap == m.st.heap;
  }

  // ---------------------------------------------------------------------------- runs

  // Only the atomic step can leave the heap unsound.
  method DoCollect(g: GlobalState, count: nat) returns (sound: bool)
    requires Inv(Snap(g))
    modifies g
    ensures Stepped(old(Snap(g)), Snap(g)) && Advances(old(Snap(g)), Snap(g), count) && (sound <==> Inv(Snap(g)))
    ensures !sound ==> old(g.gcstate) == Atomic
  {
    hide Inv, Orderly, Sound, Intact, Undisturbed, Collection, NoneOverlooked, Advances;
    var atomic := g.gcstate == Atomic;
    var _ := SingleStep(g, count);
    sound := !atomic || Intact(g.heap, g.upv, g.color, g.currentwhite);
    if atomic {
      OrderlyPhase(Snap(g));
      InvRest(Snap(g));
      IntactSound(g.View());
    }
  }

  method Do(g: GlobalState, op: Op) returns (sound: bool)
    requires Inv(Snap(g))
    modifies g
    ensures Performed(op, old(Snap(g)), Snap(g))
    ensures sound <==> Inv(Snap(g))
    ensures !sound ==> op.Collect? && old(g.gcstate) == Atomic
  {
    hide Inv, Stepped, Advances, TableDone, FieldDone, UpvalDone, RootDone, Abandoned;
    sound := true;
    match op {
      case OnTable(t) => DoTable(g, t);
      case OnField(f) => DoField(g, f);
      case OnUpval(u) => DoUpval(g, u);
      case OnRoot(r) => DoRoot(g, r);
      case Collect(count) => sound := DoCollect(g, count);
      case Restart => DoRestart(g);
    }
  }

  // Whatever can be reached in state m is alive.
  ghost predicate ReachedAlive(m: Mach) {
    forall p: seq<Ref> :: Path(m.st, p) && IsRoot(m, p[0]) ==> p[|p| - 1] in m.st.heap && p[|p| - 1] !in Gone(m.st)
  }

  lemma InvReached(m: Mach)
    requires Inv(m)
    ensures ReachedAlive(m)
  {
    hide Inv;
    forall p: seq<Ref> | Path(m.st, p) && IsRoot(m, p[0]) ensures p[|p| - 1] in m.st.heap && p[|p| - 1] !in Gone(m.st) {
      ReachableAlive(m, p);
    }
  }

  // The states of a run: each follows from the one before by the operation, and in all but
  // perhaps the last the invariant holds, and what can be reached is alive.
  ghost predicate Traced(ops: seq<Op>, trace: seq<Mach>) {
    && 0 < |trace| <= |ops| + 1
    && forall i :: 0 <= i < |trace| - 1 ==>
         Inv(trace[i]) && ReachedAlive(trace[i]) && Performed(ops[i], trace[i], trace[i + 1])
  }

  lemma TracedNext(ops: seq<Op>, trace: seq<Mach>, m: Mach)
    requires Traced(ops, trace) && |trace| <= |ops| && Inv(trace[|trace| - 1])
    requires Performed(ops[|trace| - 1], trace[|trace| - 1], m)
    ensures Traced(ops, trace + [m])
  {
    hide Inv, Performed, ReachedAlive;
    InvReached(trace[|trace| - 1]);
  }

  // A run goes on as long as the heap is sound. Where it ends early, the last operation
  // was an atomic step that has overlooked a reference (see Stepped).
  method Run(g: GlobalState, ops: seq<Op>) returns (ghost trace: seq<Mach>)
    requires Inv(Snap(g))
    modifies g
    ensures Traced(ops, trace) && trace[0] == old(Snap(g)) && trace[|trace| - 1] == Snap(g)
    ensures Inv(Snap(g)) ==> |trace| == |ops| + 1 && ReachedAlive(Snap(g))
    ensures !Inv(Snap(g)) ==> |trace| > 1 && ops[|trace| - 2].Collect? && trace[|trace| - 2].phase == Atomic
  {
    hide Inv, Performed, ReachedAlive, Traced;
    trace := [Snap(g)];
    assert Traced(ops, trace) by { TracedStart(ops, Snap(g)); }
    for i := 0 to |ops|
      invariant |trace| == i + 1 && Traced(ops, trace) && trace[0] == old(Snap(g)) && trace[i] == Snap(g)
      invariant Inv(Snap(g))
    {
      var sound := Do(g, ops[i]);
      TracedNext(ops, trace, Snap(g));
      trace := trace + [Snap(g)];
      if !sound {
        return;
      }
    }
    InvReached(Snap(g));
  }

  lemma TracedStart(ops: seq<Op>, m: Mach)
    ensures Traced(ops, [m])
  {}
}
