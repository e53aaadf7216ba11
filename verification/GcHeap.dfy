// The heap graph the collector works on: collectable objects, upvalues, colours,
// and the predicates that say which references an object still holds.

module GcHeap {
  import opened Common

  type Ref = nat      // identity of a collectable object
  type UvId = nat     // identity of an upvalue

  // A TValue: nil, a non-collectable value, or a reference to an object.
  datatype Value = Nil | Plain(n: int) | Obj(ref: Ref)

  // A hash node. 'dead' is the tag LUA_TDEADKEY that setdeadvalue puts on a key.
  datatype Node = Node(key: Value, dead: bool, val: Value)

  // What the __mode string of the metatable asks for.
  datatype Mode = Strong | WeakValues | Ephemeron | AllWeak

  datatype Object =
    | Str
    | Udata(umeta: Option<Ref>, uservalue: Value)
    | Table(meta: Option<Ref>, mode: Mode, arr: seq<Value>, nodes: seq<Node>)
    | LClosure(proto: Option<Ref>, upvals: seq<Option<UvId>>)
    | CClosure(upvalue: seq<Value>)
    | Thread(stack: seq<Value>, top: nat, openupval: seq<UvId>)
    | Proto(k: seq<Value>, parts: seq<Option<Ref>>, cache: Option<Ref>)

  // An open upvalue lives in a stack slot; a closed one owns its value.
  datatype UpVal = Open(thread: Ref, slot: nat, touched: bool) | Closed(v: Value)

  datatype Color = White(which: bool) | Gray | Black

  // The gray list an object is linked into through its single 'gclist' field. ClearL
  // are the tables in 'allweak' that a traversal put there: their values are marked.
  datatype Loc = NoList | GrayL | AgainL | WeakL | EphL | AllWeakL | ClearL | WorkL

  type Heap = map<Ref, Object>
  type Upvals = map<UvId, UpVal>
  type Colors = map<Ref, Color>
  type Locs = map<Ref, Loc>

  // The hash part of a table; nothing for any other object.
  function Nodes(h: Heap, r: Ref): seq<Node> {
    if r in h && h[r].Table? then h[r].nodes else []
  }

  // The metatable of a table.
  function MetaOf(h: Heap, r: Ref): Option<Ref> {
    if r in h && h[r].Table? then h[r].meta else None
  }

  // The upvalues of a Lua closure.
  function UpvalIds(h: Heap, r: Ref): seq<Option<UvId>> {
    if r in h && h[r].LClosure? then h[r].upvals else []
  }

  // The array part of a table.
  function ArrayOf(h: Heap, r: Ref): seq<Value> {
    if r in h && h[r].Table? then h[r].arr else []
  }

  // The open upvalues of a thread; none for any other object.
  function OpenUpvals(h: Heap, r: Ref): seq<UvId> {
    if r in h && h[r].Thread? then h[r].openupval else []
  }

  // ---------------------------------------------------------------- references

  ghost predicate In(bad: iset<Ref>, v: Value) {
    v.Obj? && v.ref in bad
  }

  ghost predicate OptIn(bad: iset<Ref>, o: Option<Ref>) {
    o.Some? && o.value in bad
  }

  ghost predicate NoneIn(bad: iset<Ref>, vs: seq<Value>) {
    forall i :: 0 <= i < |vs| ==> !In(bad, vs[i])
  }

  ghost predicate NoOptIn(bad: iset<Ref>, os: seq<Option<Ref>>) {
    forall i :: 0 <= i < |os| ==> !OptIn(bad, os[i])
  }

  function StackAt(h: Heap, th: Ref, slot: nat): Value {
    if th in h && h[th].Thread? && slot < |h[th].stack| then h[th].stack[slot] else Nil
  }

  // The value an upvalue currently denotes.
  function UvValue(h: Heap, u: Upvals, id: UvId): Value {
    if id !in u then Nil
    else match u[id]
      case Closed(v) => v
      case Open(th, slot, _) => StackAt(h, th, slot)
  }

  ghost predicate UpvalsClear(h: Heap, u: Upvals, bad: iset<Ref>, ids: seq<Option<UvId>>) {
    forall i :: 0 <= i < |ids| && ids[i].Some? ==> !In(bad, UvValue(h, u, ids[i].value))
  }

  // The key of a node is read as long as it has not been tagged dead, even after its
  // value has become nil: 'removeentry' looks at its mark, and a search that runs along
  // the chain compares the contents of long strings.
  ghost predicate KeyClear(bad: iset<Ref>, n: Node) {
    n.dead || !In(bad, n.key)
  }

  ghost predicate NodeClear(bad: iset<Ref>, n: Node) {
    KeyClear(bad, n) && !In(bad, n.val)
  }

  ghost predicate NodesClear(bad: iset<Ref>, ns: seq<Node>) {
    forall i :: 0 <= i < |ns| ==> NodeClear(bad, ns[i])
  }

  // No reference held by the object, strong or weak, leads into 'bad'.
  ghost predicate Clear(h: Heap, u: Upvals, bad: iset<Ref>, o: Object) {
    match o
    case Str => true
    case Udata(mt, uv) => !OptIn(bad, mt) && !In(bad, uv)
    case Table(mt, _, arr, nodes) => !OptIn(bad, mt) && NoneIn(bad, arr) && NodesClear(bad, nodes)
    case LClosure(p, ids) => !OptIn(bad, p) && UpvalsClear(h, u, bad, ids)
    case CClosure(vs) => NoneIn(bad, vs)
    case Thread(stack, _, _) => NoneIn(bad, stack)
    case Proto(k, parts, cache) => NoneIn(bad, k) && NoOptIn(bad, parts) && !OptIn(bad, cache)
  }

  lemma ClearAntitone(h: Heap, u: Upvals, bad: iset<Ref>, bad': iset<Ref>, o: Object)
    requires bad' <= bad && Clear(h, u, bad, o)
    ensures Clear(h, u, bad', o)
  {}

  lemma ClearUnion(h: Heap, u: Upvals, bad: iset<Ref>, bad': iset<Ref>, o: Object)
    requires Clear(h, u, bad, o) && Clear(h, u, bad', o)
    ensures Clear(h, u, bad + bad', o)
  {}

  // ------------------------------------------------------------ well-formedness

  // The list of open upvalues is sorted by stack slot, the highest first.
  ghost predicate Descending(u: Upvals, ids: seq<UvId>) {
    forall i, j :: 0 <= i < j < |ids| ==>
      ids[i] in u && ids[j] in u && u[ids[i]].Open? && u[ids[j]].Open? ==> u[ids[i]].slot > u[ids[j]].slot
  }

  ghost predicate ThreadWF(u: Upvals, r: Ref, o: Object)
    requires o.Thread?
  {
    && o.top <= |o.stack|
    && NoDup(o.openupval) && Descending(u, o.openupval)
    && forall id :: id in o.openupval ==>
         id in u && u[id].Open? && u[id].thread == r && u[id].slot < o.top
  }

  ghost predicate UvWF(h: Heap, id: UvId, uv: UpVal) {
    uv.Open? ==> uv.thread in h && h[uv.thread].Thread? && id in h[uv.thread].openupval
  }

  ghost predicate ObjectWF(u: Upvals, r: Ref, o: Object) {
    match o
    case Thread(_, _, _) => ThreadWF(u, r, o)
    case LClosure(_, ids) => forall i :: 0 <= i < |ids| && ids[i].Some? ==> ids[i].value in u
    case Table(_, _, _, nodes) => forall i :: 0 <= i < |nodes| && nodes[i].dead ==> nodes[i].val.Nil?
    case _ => true
  }

  ghost predicate HeapWF(h: Heap, u: Upvals) {
    && (forall r :: r in h ==> ObjectWF(u, r, h[r]))
    && (forall id :: id in u ==> UvWF(h, id, u[id]))
  }

  // ------------------------------------------------------------------- colours

  ghost function Whites(c: Colors): iset<Ref> {
    iset r | r in c && c[r].White?
  }

  predicate IsWhite(c: Colors, r: Ref) {
    r in c && c[r].White?
  }

  // Marking only turns whites into grays and blacks.
  ghost predicate Marks(c: Colors, c': Colors) {
    && c'.Keys == c.Keys
    && forall r :: r in c ==> c'[r] == c[r] || (c[r].White? && !c'[r].White?)
  }

  // ------------------------------------------ the invariant of a marking phase

  ghost predicate Pending(loc: Locs, r: Ref) {
    r in loc && (loc[r] == GrayL || loc[r] == AgainL)
  }

  // How open upvalues of black closures are accounted for: by their 'touched' flag
  // while the program runs; in the atomic step, until 'remarkupvals' has run, by the
  // flag or by a marked value; afterwards the flag does not count.
  datatype UvRule = Flagged | Remarking | Remarked

  // An upvalue of a black closure. Where its flag does not count, its value is marked
  // or its thread will still be traversed (it is in a list, or it is being traversed:
  // 'busy').
  ghost predicate UvBlack(h: Heap, u: Upvals, W: iset<Ref>, rule: UvRule, loc: Locs, busy: set<Ref>, id: UvId) {
    id in u ==>
      match u[id]
      case Closed(v) => !In(W, v)
      case Open(th, slot, touched) =>
        || (touched && !rule.Remarked?)
        || (!rule.Flagged? && (!In(W, StackAt(h, th, slot)) || Pending(loc, th) || th in busy))
  }

  // A black object does not point to a white one.
  ghost predicate BlackOk(h: Heap, u: Upvals, W: iset<Ref>, rule: UvRule, loc: Locs, busy: set<Ref>, o: Object) {
    match o
    case Table(mt, _, arr, nodes) =>
      !OptIn(W, mt) && NoneIn(W, arr) && NodesClear(W, nodes)
    case LClosure(p, ids) =>
      && !OptIn(W, p)
      && forall i :: 0 <= i < |ids| && ids[i].Some? ==> UvBlack(h, u, W, rule, loc, busy, ids[i].value)
    case Thread(_, _, _) => false
    case _ => Clear(h, u, W, o)
  }

  ghost predicate KeysClear(W: iset<Ref>, ns: seq<Node>) {
    forall i :: 0 <= i < |ns| ==> KeyClear(W, ns[i])
  }

  ghost predicate EmptyClear(W: iset<Ref>, ns: seq<Node>) {
    forall i :: 0 <= i < |ns| && ns[i].val.Nil? ==> KeyClear(W, ns[i])
  }

  ghost predicate ValsClear(W: iset<Ref>, ns: seq<Node>) {
    forall i :: 0 <= i < |ns| ==> !In(W, ns[i].val)
  }

  // A gray object that the atomic phase has already dealt with: threads (always
  // gray) and weak tables, which are also in the list that will clear them. An all-weak
  // table is not traversed: nothing is known of the keys of its empty entries.
  ghost predicate GrayDone(W: iset<Ref>, l: Loc, o: Object) {
    match o
    case Thread(stack, _, _) => NoneIn(W, stack)
    case Table(mt, mode, arr, nodes) =>
      && !OptIn(W, mt)
      && (if l == AllWeakL then true
          else if l == ClearL then NoneIn(W, arr) && ValsClear(W, nodes) && EmptyClear(W, nodes) else
          match mode
          case Strong => false
          case WeakValues =>
            KeysClear(W, nodes) && (l == WeakL || (NoneIn(W, arr) && ValsClear(W, nodes)))
          case Ephemeron =>
            NoneIn(W, arr) && (if l == EphL || l == WorkL then EmptyClear(W, nodes) else NodesClear(W, nodes))
          case AllWeak => false)
    case _ => false
  }

  // A gray object is in a list that will be visited again, or that will be cleared.
  // All-weak tables go to the latter even in the propagate phase.
  ghost predicate GrayOk(W: iset<Ref>, inside: bool, fixed: seq<Ref>, l: Loc, r: Ref, o: Object) {
    || l == GrayL || l == AgainL
    || ((inside || l == AllWeakL) && GrayDone(W, l, o))
    || (r in fixed && o.Str?)
  }

  // Which kinds of objects may be linked in which list.
  ghost predicate LocOk(l: Loc, o: Object) {
    match l
    case NoList => true
    case GrayL => !o.Str? && !o.Udata?
    case AgainL => o.Table? || o.Thread?
    case EphL => o.Table? && o.mode.Ephemeron?
    case WorkL => o.Table? && o.mode.Ephemeron?
    case ClearL => o.Table? && o.mode.Ephemeron?
    case _ => o.Table?
  }

  // The sequence s is the list l: it has the objects linked there, each once.
  ghost predicate ListIs(loc: Locs, l: Loc, s: seq<Ref>) {
    && NoDup(s)
    && (forall r :: r in s ==> r in loc && loc[r] == l)
    && (forall r :: r in loc && loc[r] == l ==> r in s)
  }

  function Merged(loc: Locs): Locs {
    map r | r in loc :: if loc[r] == ClearL then AllWeakL else loc[r]
  }

  // The list 'allweak'.
  ghost predicate AllWeakIs(loc: Locs, s: seq<Ref>) {
    ListIs(Merged(loc), AllWeakL, s)
  }

  // -------------------------------------------------- what collecting may erase

  ghost predicate ErasedTo(vs: seq<Value>, vs': seq<Value>) {
    |vs'| == |vs| && forall i :: 0 <= i < |vs| ==> vs'[i] == vs[i] || vs'[i].Nil?
  }

  ghost predicate NodeTrim(n: Node, n': Node) {
    && n'.key == n.key && (n'.val == n.val || n'.val.Nil?)
    && (n.dead ==> n'.dead) && (n'.dead ==> n.dead || n'.val.Nil?)
  }

  ghost predicate NodesTrim(ns: seq<Node>, ns': seq<Node>) {
    |ns'| == |ns| && forall i :: 0 <= i < |ns| ==> NodeTrim(ns[i], ns'[i])
  }

  ghost predicate EmptyKept(ns: seq<Node>, ns': seq<Node>) {
    forall i :: 0 <= i < |ns| && i < |ns'| && ns[i].val.Nil? ==> ns'[i] == ns[i]
  }

  // The collector may empty weak entries, forget dead keys (but not in an all-weak
  // table), drop a closure cache and clear the unused part of a stack. It changes
  // nothing else in an object.
  ghost predicate ObjTrim(o: Object, o': Object) {
    match o
    case Table(mt, mode, arr, nodes) =>
      && o'.Table? && o'.meta == mt && o'.mode == mode && ErasedTo(arr, o'.arr) && NodesTrim(nodes, o'.nodes)
      && (mode.AllWeak? ==> EmptyKept(nodes, o'.nodes))
    case Thread(stack, top, ids) =>
      && o'.Thread? && o'.top == top && o'.openupval == ids && ErasedTo(stack, o'.stack)
      && forall i :: 0 <= i < |stack| && i < top ==> o'.stack[i] == stack[i]
    case Proto(k, parts, cache) =>
      o'.Proto? && o'.k == k && o'.parts == parts && (o'.cache == cache || o'.cache.None?)
    case _ => o' == o
  }

  ghost predicate Trim(h: Heap, h': Heap) {
    h'.Keys == h.Keys && forall r :: r in h ==> ObjTrim(h[r], h'[r])
  }

  lemma TrimReflexive(h: Heap)
    ensures Trim(h, h)
  {}

  lemma TrimTransitive(h: Heap, h': Heap, h'': Heap)
    requires Trim(h, h') && Trim(h', h'')
    ensures Trim(h, h'')
  {
    forall r | r in h ensures ObjTrim(h[r], h''[r]) {
      assert ObjTrim(h[r], h'[r]) && ObjTrim(h'[r], h''[r]);
    }
  }

  // Marking may only flip the 'touched' flags of open upvalues.
  ghost predicate SameUpvals(u: Upvals, u': Upvals) {
    && u'.Keys == u.Keys
    && forall id :: id in u ==>
         (u'[id] == u[id] || (u[id].Open? && u'[id].Open? && u'[id] == u[id].(touched := u'[id].touched)))
  }

  lemma TrimClear(h: Heap, u: Upvals, h': Heap, u': Upvals, bad: iset<Ref>, r: Ref)
    requires HeapWF(h, u) && Trim(h, h') && SameUpvals(u, u')
    requires r in h && Clear(h, u, bad, h[r])
    ensures Clear(h', u', bad, h'[r])
  {
    assert ObjTrim(h[r], h'[r]);
    if h[r].LClosure? {
      TrimUpvals(h, u, h', u', bad, h[r].upvals);
    }
  }

  lemma TrimUvValue(h: Heap, u: Upvals, h': Heap, u': Upvals, id: UvId)
    requires HeapWF(h, u) && Trim(h, h') && SameUpvals(u, u')
    ensures UvValue(h', u', id) == UvValue(h, u, id)
  {
    if id in u && u[id].Open? {
      var th := u[id].thread;
      assert UvWF(h, id, u[id]) && ObjectWF(u, th, h[th]);
      assert ObjTrim(h[th], h'[th]);
    }
  }

  lemma TrimUpvals(h: Heap, u: Upvals, h': Heap, u': Upvals, bad: iset<Ref>, ids: seq<Option<UvId>>)
    requires HeapWF(h, u) && Trim(h, h') && SameUpvals(u, u')
    requires UpvalsClear(h, u, bad, ids)
    ensures UpvalsClear(h', u', bad, ids)
  {
    forall i | 0 <= i < |ids| && ids[i].Some?
      ensures !In(bad, UvValue(h', u', ids[i].value))
    {
      TrimUvValue(h, u, h', u', ids[i].value);
    }
  }

  lemma TrimObjectWF(u: Upvals, u': Upvals, r: Ref, o: Object, o': Object)
    requires ObjectWF(u, r, o) && ObjTrim(o, o') && SameUpvals(u, u')
    ensures ObjectWF(u', r, o')
  {
    if o.Thread? {
      var ids := o.openupval;
      forall i, j | 0 <= i < j < |ids| ensures u'[ids[i]].slot > u'[ids[j]].slot {
        assert ids[i] in ids && ids[j] in ids;
      }
    }
  }

  lemma TrimWF(h: Heap, u: Upvals, h': Heap, u': Upvals)
    requires HeapWF(h, u) && Trim(h, h') && SameUpvals(u, u')
    ensures HeapWF(h', u')
  {
    forall r | r in h' ensures ObjectWF(u', r, h'[r]) {
      assert ObjTrim(h[r], h'[r]) && ObjectWF(u, r, h[r]);
      TrimObjectWF(u, u', r, h[r], h'[r]);
    }
    hide ObjectWF;
    forall id | id in u' ensures UvWF(h', id, u'[id]) {
      assert UvWF(h, id, u[id]);
      if u[id].Open? { assert ObjTrim(h[u[id].thread], h'[u[id].thread]); }
    }
  }
}
