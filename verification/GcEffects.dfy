// What the program may do between two steps of the collector: when each operation is
// allowed, and what it does to the heap, the upvalues, the roots and the lists.

module GcEffects {
  import opened Common
  import opened GcHeap
  import opened GcState
  import opened GcMark
  import opened GcMachine
  import opened GcSweep
  import opened GcFinalize
  import opened GcStore
  import opened GcMutator
  import opened GcUpvalues
  import opened GcObjects

  datatype TableOp =
    | Element(h: Ref, i: nat, v: Value)
    | Entry(h: Ref, i: nat, v: Value)
    | NewKey(h: Ref, i: nat, key: Value)
    | Rehash(h: Ref, arr: seq<Value>, nodes: seq<Node>)
    | ChangeMode(h: Ref, mode: Mode)
    | Metatable(h: Ref, mt: Option<Ref>, mode: Mode)

  datatype FieldOp =
    | UserValue(o: Ref, v: Value)
    | CUpvalue(o: Ref, i: nat, v: Value)
    | Constant(o: Ref, i: nat, v: Value)
    | Part(o: Ref, i: nat, r: Ref)
    | Cache(o: Ref, cl: Ref)
    | Slot(o: Ref, i: nat, v: Value)
    | Stack(o: Ref, size: nat, top: nat)  // pushes, pops and reallocation

  datatype UpvalOp =
    | Find(th: Ref, level: nat, uv: UvId)
    | Close(th: Ref, level: nat)
    | Assign(id: UvId, v: Value)
    | Join(cl: Ref, i: nat, id: UvId)
    | Capture(cl: Ref, i: nat, id: UvId)
    | NewClosed(id: UvId)
    | Prototype(cl: Ref, p: Ref)

  datatype RootOp =
    | Create(r: Ref, o: Object)
    | Intern(r: Ref)
    | FixString(r: Ref)
    | Finalizer(r: Ref)
    | TypeMetatable(i: nat, mt: Option<Ref>)
    | Registry(v: Value)
    | Switch(th: Ref)
    | Finalize

  datatype Op =
    | OnTable(t: TableOp) | OnField(f: FieldOp) | OnUpval(u: UpvalOp) | OnRoot(r: RootOp)
    | Collect(count: nat)  // a step of the collector
    | Restart              // a full collection begins: marking is abandoned

  // ------------------------------------------------------- what the program may name

  predicate Alive(heap: Heap, color: Colors, white: bool, r: Ref) {
    r in heap && !(r in color && color[r] == White(!white))
  }

  predicate Can(heap: Heap, color: Colors, white: bool, v: Value) {
    v.Obj? ==> Alive(heap, color, white, v.ref)
  }

  predicate CanOpt(heap: Heap, color: Colors, white: bool, o: Option<Ref>) {
    o.Some? ==> Alive(heap, color, white, o.value)
  }

  predicate Live(heap: Heap, color: Colors, white: bool, r: Ref) {
    Alive(heap, color, white, r) && !heap[r].Str?
  }

  lemma AliveNames(s: St, r: Ref)
    ensures Alive(s.heap, s.color, s.white, r) <==> r !in Gone(s)
  {}

  // --------------------------------------------------------------------------- tables

  predicate MayTable(op: TableOp, heap: Heap, color: Colors, white: bool) {
    && Live(heap, color, white, op.h)
    && (heap[op.h].Table? || (op.Metatable? && heap[op.h].Udata?))
    && match op
       case Element(h, i, v) => i < |heap[h].arr| && Can(heap, color, white, v)
       case Entry(h, i, v) => i < |heap[h].nodes| && !heap[h].nodes[i].dead && Can(heap, color, white, v)
       case NewKey(h, i, key) => i < |heap[h].nodes| && heap[h].nodes[i].val.Nil? && Can(heap, color, white, key)
       case Rehash(h, arr, nodes) => Moved(heap[h], heap[h].(arr := arr, nodes := nodes))
       case ChangeMode(h, mode) => true
       case Metatable(h, mt, mode) => CanOpt(heap, color, white, mt)
  }

  function TableAfter(op: TableOp, t: Object): Object {
    match op
    case Element(_, i, v) => if t.Table? && i < |t.arr| then t.(arr := t.arr[i := v]) else t
    case Entry(_, i, v) => if t.Table? && i < |t.nodes| then t.(nodes := t.nodes[i := t.nodes[i].(val := v)]) else t
    case NewKey(_, i, key) => if t.Table? && i < |t.nodes| then t.(nodes := t.nodes[i := Node(key, false, Nil)]) else t
    case Rehash(_, arr, nodes) => if t.Table? then t.(arr := arr, nodes := nodes) else t
    case ChangeMode(_, mode) => if t.Table? then t.(mode := mode) else t
    case Metatable(_, mt, mode) => if t.Table? || t.Udata? then WithMeta(t, mt, mode) else t
  }

  // Only a table that gets a metatable may get stuck by this.
  ghost function StuckAfter(op: TableOp, m: Mach): set<Ref> {
    if op.Metatable? then Stick(m, op.h, op.mt).st.stuck else m.st.stuck
  }

  // What its barrier marks.
  function TableRefs(op: TableOp): set<Ref> {
    if op.Metatable? then OptRefs(op.mt) else {}
  }

  ghost predicate TableDone(op: TableOp, m: Mach, m': Mach) {
    if !MayTable(op, m.st.heap, m.st.color, m.st.white) then m' == m
    else Becomes(m, m', m.st.heap[op.h := TableAfter(op, m.st.heap[op.h])], m.st.upv, StuckAfter(op, m), TableRefs(op))
  }

  // --------------------------------------------------------------------------- fields

  // The slots that open upvalues denote stay in use.
  predicate SlotsUnder(upv: Upvals, ids: seq<UvId>, top: nat) {
    forall id :: id in ids ==> id in upv && upv[id].Open? ==> upv[id].slot < top
  }

  predicate MayField(op: FieldOp, heap: Heap, upv: Upvals, color: Colors, white: bool) {
    && Live(heap, color, white, op.o)
    && match op
       case UserValue(o, v) => heap[o].Udata? && Can(heap, color, white, v)
       case CUpvalue(o, i, v) => heap[o].CClosure? && i < |heap[o].upvalue| && Can(heap, color, white, v)
       case Constant(o, i, v) => heap[o].Proto? && i < |heap[o].k| && Can(heap, color, white, v)
       case Part(o, i, r) => heap[o].Proto? && i < |heap[o].parts| && Alive(heap, color, white, r)
       case Cache(o, cl) => heap[o].Proto? && Alive(heap, color, white, cl)
       case Slot(o, i, v) => heap[o].Thread? && i < |heap[o].stack| && Can(heap, color, white, v)
       case Stack(o, size, top) => heap[o].Thread? && top <= size && SlotsUnder(upv, heap[o].openupval, top)
  }

  function FieldAfter(op: FieldOp, o: Object, black: bool): Object {
    match op
    case UserValue(_, v) => if o.Udata? then o.(uservalue := v) else o
    case CUpvalue(_, i, v) => if o.CClosure? && i < |o.upvalue| then CClosure(o.upvalue[i := v]) else o
    case Constant(_, i, v) => if o.Proto? && i < |o.k| then o.(k := o.k[i := v]) else o
    case Part(_, i, r) => if o.Proto? && i < |o.parts| then o.(parts := o.parts[i := Some(r)]) else o
    case Cache(_, cl) => if o.Proto? && !black then o.(cache := Some(cl)) else o
    case Slot(_, i, v) => if o.Thread? && i < |o.stack| then o.(stack := o.stack[i := v]) else o
    case Stack(_, size, top) => if o.Thread? then o.(stack := Resized(o.stack, size), top := top) else o
  }

  function FieldRefs(op: FieldOp): set<Ref> {
    match op
    case UserValue(_, v) => ValueRefs(v)
    case CUpvalue(_, _, v) => ValueRefs(v)
    case Constant(_, _, v) => ValueRefs(v)
    case Part(_, _, r) => {r}
    case _ => {}
  }

  ghost predicate FieldDone(op: FieldOp, m: Mach, m': Mach) {
    if !MayField(op, m.st.heap, m.st.upv, m.st.color, m.st.white) then m' == m
    else
      var black := op.o in m.st.color && m.st.color[op.o].Black?;
      Becomes(m, m', m.st.heap[op.o := FieldAfter(op, m.st.heap[op.o], black)], m.st.upv, m.st.stuck, FieldRefs(op))
  }

  // ------------------------------------------------------------------------- upvalues

  predicate MayUpval(op: UpvalOp, heap: Heap, upv: Upvals, color: Colors, white: bool) {
    match op
    case Find(th, level, uv) => Live(heap, color, white, th) && heap[th].Thread? && level < heap[th].top && uv !in upv
    case Close(th, level) => Live(heap, color, white, th) && heap[th].Thread?
    case Assign(id, v) =>
      id in upv && (upv[id].Open? ==> Live(heap, color, white, upv[id].thread)) && Can(heap, color, white, v)
    case Join(cl, i, id) =>
      && Live(heap, color, white, cl) && heap[cl].LClosure? && i < |heap[cl].upvals|
      && id in upv && Can(heap, color, white, UvValue(heap, upv, id))
    case Capture(cl, i, id) =>
      && Live(heap, color, white, cl) && heap[cl].LClosure? && i < |heap[cl].upvals| && IsWhite(color, cl)
      && id in upv && Can(heap, color, white, UvValue(heap, upv, id))
    case NewClosed(id) => id !in upv
    case Prototype(cl, p) =>
      Live(heap, color, white, cl) && heap[cl].LClosure? && IsWhite(color, cl) && Alive(heap, color, white, p)
  }

  // The closure has the upvalue at index i.
  function WithUpval(h: Heap, cl: Ref, i: nat, id: UvId): Heap {
    if cl in h && h[cl].LClosure? && i < |h[cl].upvals| then h[cl := h[cl].(upvals := h[cl].upvals[i := Some(id)])] else h
  }

  function WithProto(h: Heap, cl: Ref, p: Ref): Heap {
    if cl in h && h[cl].LClosure? then h[cl := h[cl].(proto := Some(p))] else h
  }

  ghost predicate UpvalDone(op: UpvalOp, m: Mach, m': Mach) {
    var s := m.st;
    if !MayUpval(op, s.heap, s.upv, s.color, s.white) then m' == m
    else match op
      case Find(th, level, uv) => if HasUpval(s.heap, s.upv, th, level) then m' == m else Added(m, m', th, level, uv)
      case Close(th, level) => exists n: nat :: SplitAt(OpenUpvals(s.heap, th), s.upv, level, n) && ClosedTo(m, m', th, n)
      case Assign(id, v) =>
        if s.upv[id].Open? then Becomes(m, m', InSlot(s.heap, s.upv[id].thread, s.upv[id].slot, v), s.upv, s.stuck, {})
        else Becomes(m, m', s.heap, s.upv[id := Closed(v)], s.stuck, ValueRefs(v))
      case Join(cl, i, id) => Becomes(m, m', WithUpval(s.heap, cl, i, id), Joined(s.upv, id), s.stuck, ClosedRefs(s.upv, id))
      case Capture(cl, i, id) => Becomes(m, m', WithUpval(s.heap, cl, i, id), s.upv, s.stuck, {})
      case NewClosed(id) => Becomes(m, m', s.heap, s.upv[id := Closed(Nil)], s.stuck, {})
      case Prototype(cl, p) => Becomes(m, m', WithProto(s.heap, cl, p), s.upv, s.stuck, {})
  }

  // ---------------------------------------------------------- objects, lists and roots

  // An object as it is allocated: without references.
  predicate Blank(o: Object) {
    match o
    case Str => true
    case Udata(mt, uv) => mt.None? && uv.Nil?
    case Table(mt, mode, arr, nodes) => mt.None? && mode.Strong? && arr == [] && nodes == []
    case LClosure(p, ids) => p.None? && forall i :: 0 <= i < |ids| ==> ids[i].None?
    case CClosure(vs) => forall i :: 0 <= i < |vs| ==> vs[i].Nil?
    case Thread(stack, top, ids) => top == 0 && ids == [] && forall i :: 0 <= i < |stack| ==> stack[i].Nil?
    case Proto(k, parts, cache) =>
      && cache.None? && (forall i :: 0 <= i < |k| ==> k[i].Nil?)
      && forall i :: 0 <= i < |parts| ==> parts[i].None?
  }

  lemma BlankNewborn(s: St, r: Ref, o: Object)
    requires Blank(o) && r !in s.heap
    ensures Newborn(s, r, o)
  {}

  predicate MayRoot(op: RootOp, heap: Heap, color: Colors, white: bool, phase: GcPhase, allgc: seq<Ref>, tobefnz: seq<Ref>, types: nat) {
    match op
    case Create(r, o) => r !in heap && Blank(o)
    case Intern(r) => r in heap && heap[r].Str?
    case FixString(r) => phase == Pause && allgc != [] && allgc[0] == r && Alive(heap, color, white, r) && heap[r].Str?
    case Finalizer(r) => Live(heap, color, white, r) && (heap[r].Table? || heap[r].Udata?)
    case TypeMetatable(i, mt) => i < types && CanOpt(heap, color, white, mt)
    case Registry(v) => Can(heap, color, white, v)
    case Switch(th) => Live(heap, color, white, th) && heap[th].Thread?
    case Finalize => tobefnz != []
  }

  ghost predicate RootDone(op: RootOp, m: Mach, m': Mach) {
    if !MayRoot(op, m.st.heap, m.st.color, m.st.white, m.phase, m.allgc, m.tobefnz, |m.mt|) then m' == m
    else match op
      case Create(r, o) => m' == BornIn(m, r, o)
      case Intern(r) => m' == if Dead(m.st, r) then m.(st := Whiten(m.st, r)) else m
      case FixString(r) => m' == Fixed(m)
      case Finalizer(r) => Relisted(m, m', r)
      case TypeMetatable(i, mt) => m' == m.(mt := m.mt[i := mt])
      case Registry(v) => m' == m.(registry := v)
      case Switch(th) => m' == m.(running := th)
      case Finalize => m' == Popped(m)
  }

  // -------------------------------------------------------------------- any operation

  // Marking has been abandoned: the sweep begins, and nothing is freed.
  ghost predicate Abandoned(m: Mach, m': Mach) {
    m'.phase == SwpAllGc && Sweeping(m, m') && m'.st.heap == m.st.heap
  }

  // What an operation does; one that is not allowed does nothing.
  ghost predicate Performed(op: Op, m: Mach, m': Mach) {
    match op
    case OnTable(t) => TableDone(t, m, m')
    case OnField(f) => FieldDone(f, m, m')
    case OnUpval(u) => UpvalDone(u, m, m')
    case OnRoot(r) => RootDone(r, m, m')
    case Collect(count) => Stepped(m, m') && Advances(m, m', count)
    case Restart => if KeepInvariant(m.phase) then Abandoned(m, m') else m' == m
  }
}
