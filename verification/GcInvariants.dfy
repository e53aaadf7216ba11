// The tri-colour invariant of the marking phases as predicates on values, and how
// marking an object, retagging a list and erasing weak entries preserve it.

module GcInvariants {
  import opened Common
  import opened GcHeap

  // 'skip' are the objects being traversed right now, 'stuck' marked ones whose
  // references are not looked after.
  ghost predicate BlackInv(h: Heap, u: Upvals, c: Colors, rule: UvRule, loc: Locs, skip: set<Ref>, stuck: set<Ref>) {
    forall r :: r in h && r in c && r !in skip && r !in stuck && c[r].Black? ==>
      BlackOk(h, u, Whites(c), rule, loc, skip, h[r])
  }

  ghost predicate GrayInv(h: Heap, c: Colors, inside: bool, fixed: seq<Ref>, loc: Locs, skip: set<Ref>, stuck: set<Ref>) {
    forall r :: r in h && r in c && r in loc && r !in skip && r !in stuck && c[r].Gray? ==>
      GrayOk(Whites(c), inside, fixed, loc[r], r, h[r])
  }

  // Only tables and userdata get stuck.
  ghost predicate StuckOk(h: Heap, c: Colors, stuck: set<Ref>) {
    forall r :: r in stuck ==> r in h && (h[r].Table? || h[r].Udata?) && r in c && !c[r].White?
  }

  ghost function Missing(h: Heap): iset<Ref> {
    iset r: Ref | r !in h
  }

  // Every reference held by an object of the heap is to an object of the heap.
  ghost predicate Exist(h: Heap, u: Upvals) {
    forall r :: r in h ==> Clear(h, u, Missing(h), h[r])
  }

  ghost predicate LocsOk(h: Heap, c: Colors, loc: Locs) {
    && loc.Keys == h.Keys && c.Keys == h.Keys
    && forall r :: r in h ==> LocOk(loc[r], h[r]) && (loc[r] != NoList ==> c[r].Gray?)
  }

  // ------------------------------------------------------ what tables may lose

  ghost predicate IsStr(h: Heap, v: Value) {
    v.Obj? && v.ref in h && h[v.ref].Str?
  }

  // The value may be cleared: it is unmarked, and it is not a string.
  ghost predicate ValueLost(h: Heap, W: iset<Ref>, v: Value) {
    In(W, v) && !IsStr(h, v)
  }

  ghost predicate EntryLost(h: Heap, W: iset<Ref>, n: Node) {
    ValueLost(h, W, n.key) || ValueLost(h, W, n.val)
  }

  ghost predicate TableLoses(h: Heap, W: iset<Ref>, t: Object, t': Object)
    requires t.Table?
  {
    && t'.Table? && |t'.arr| == |t.arr| && |t'.nodes| == |t.nodes|
    && (forall i :: 0 <= i < |t.arr| ==> t'.arr[i] == t.arr[i] || ValueLost(h, W, t.arr[i]))
    && (forall i :: 0 <= i < |t.nodes| ==> t'.nodes[i].val == t.nodes[i].val || EntryLost(h, W, t.nodes[i]))
  }

  // Tables lose only entries with an unmarked value or key.
  ghost predicate LosesOnly(h: Heap, h': Heap, W: iset<Ref>) {
    forall r :: r in h && r in h' && h[r].Table? ==> TableLoses(h, W, h[r], h'[r])
  }

  lemma LosesTransitive(h: Heap, h': Heap, h'': Heap, W: iset<Ref>, W': iset<Ref>)
    requires Trim(h, h') && LosesOnly(h, h', W) && LosesOnly(h', h'', W') && W' <= W
    ensures LosesOnly(h, h'', W)
  {
    assert forall v: Value :: IsStr(h', v) <==> IsStr(h, v) by {
      assert forall r :: r in h ==> ObjTrim(h[r], h'[r]);
    }
    forall r | r in h && r in h'' && h[r].Table? ensures TableLoses(h, W, h[r], h''[r]) {
      assert TableLoses(h, W, h[r], h'[r]) && TableLoses(h', W', h'[r], h''[r]) && ObjTrim(h[r], h'[r]);
      LosesObject(h, h', h[r], h'[r], h''[r], W, W');
    }
  }

  lemma LosesObject(h: Heap, h': Heap, t: Object, t': Object, t'': Object, W: iset<Ref>, W': iset<Ref>)
    requires forall v: Value :: IsStr(h', v) <==> IsStr(h, v)
    requires t.Table? && t'.Table? && ObjTrim(t, t') && W' <= W
    requires TableLoses(h, W, t, t') && TableLoses(h', W', t', t'')
    ensures TableLoses(h, W, t, t'')
  {
    forall i | 0 <= i < |t.nodes|
      ensures t''.nodes[i].val == t.nodes[i].val || EntryLost(h, W, t.nodes[i])
    {
      assert NodeTrim(t.nodes[i], t'.nodes[i]);
    }
  }

  // ------------------------------------- what marking may reach: a closed bound

  ghost predicate InB(b: set<Ref>, v: Value) {
    v.Obj? ==> v.ref in b
  }

  ghost predicate OptInB(b: set<Ref>, o: Option<Ref>) {
    o.Some? ==> o.value in b
  }

  ghost predicate AllInB(b: set<Ref>, vs: seq<Value>) {
    forall i :: 0 <= i < |vs| ==> InB(b, vs[i])
  }

  // Strings are values: a weak table never loses them, so it may mark them.
  ghost predicate StrInB(h: Heap, b: set<Ref>, v: Value) {
    IsStr(h, v) ==> v.ref in b
  }

  ghost predicate EntryBound(h: Heap, b: set<Ref>, mode: Mode, n: Node) {
    n.val.Nil? ||
    match mode
    case Strong => InB(b, n.key) && InB(b, n.val)
    case WeakValues => InB(b, n.key) && StrInB(h, b, n.val)
    case Ephemeron => StrInB(h, b, n.key) && (InB(b, n.key) ==> InB(b, n.val))
    case AllWeak => true
  }

  ghost predicate ObjBound(h: Heap, u: Upvals, b: set<Ref>, o: Object) {
    match o
    case Str => true
    case Udata(mt, uv) => OptInB(b, mt) && InB(b, uv)
    case Table(mt, mode, arr, nodes) =>
      && OptInB(b, mt)
      && (if mode in {Strong, Ephemeron} then AllInB(b, arr)
          else forall i :: 0 <= i < |arr| ==> StrInB(h, b, arr[i]))
      && forall i :: 0 <= i < |nodes| ==> EntryBound(h, b, mode, nodes[i])
    case LClosure(p, ids) =>
      && OptInB(b, p)
      && forall i :: 0 <= i < |ids| && ids[i].Some? ==> InB(b, UvValue(h, u, ids[i].value))
    case CClosure(vs) => AllInB(b, vs)
    case Thread(stack, top, _) => forall i :: 0 <= i < |stack| && i < top ==> InB(b, stack[i])
    case Proto(k, parts, _) => AllInB(b, k) && forall i :: 0 <= i < |parts| ==> OptInB(b, parts[i])
  }

  // 'b' is closed under the references that marking follows: strong references,
  // and the value of an ephemeron entry once its key is in 'b'.
  ghost predicate BoundClosed(h: Heap, u: Upvals, stuck: set<Ref>, b: set<Ref>) {
    b <= h.Keys && forall r :: r in b && r in h && r !in stuck ==> ObjBound(h, u, b, h[r])
  }

  ghost predicate MarkedWithin(c: Colors, b: set<Ref>) {
    forall r :: r in c && !c[r].White? ==> r in b
  }

  // ---------------------------------------------------------------- preservation

  // Lists may gain newly marked objects; linked objects stay where they are.
  ghost predicate LocKeeps(c: Colors, loc: Locs, loc': Locs) {
    && loc'.Keys == loc.Keys
    && forall r :: r in loc ==> loc'[r] == loc[r] || (r in c && c[r].White? && loc'[r] == GrayL)
  }

  lemma BlackInvMono(h: Heap, u: Upvals, c: Colors, c': Colors, rule: UvRule, loc: Locs, loc': Locs, skip: set<Ref>, skip': set<Ref>, stuck: set<Ref>)
    requires BlackInv(h, u, c, rule, loc, skip, stuck) && skip <= skip'
    requires Whites(c') <= Whites(c)
    requires forall r :: Pending(loc, r) ==> Pending(loc', r) || r in skip'
    requires forall r :: r in h && r in c' && r !in skip' && r !in stuck && c'[r].Black? ==> r in c && c[r].Black?
    ensures BlackInv(h, u, c', rule, loc', skip', stuck)
  {
    forall r | r in h && r in c' && r !in skip' && r !in stuck && c'[r].Black?
      ensures BlackOk(h, u, Whites(c'), rule, loc', skip', h[r])
    {
      assert BlackOk(h, u, Whites(c), rule, loc, skip, h[r]);
      if h[r].LClosure? {
        var ids := h[r].upvals;
        forall i | 0 <= i < |ids| && ids[i].Some?
          ensures UvBlack(h, u, Whites(c'), rule, loc', skip', ids[i].value)
        {
          assert UvBlack(h, u, Whites(c), rule, loc, skip, ids[i].value);
        }
      }
    }
  }

  // The object 'o' is no longer being traversed: it must be in order itself.
  lemma BlackInvUnskip(h: Heap, u: Upvals, c: Colors, rule: UvRule, loc: Locs, skip: set<Ref>, stuck: set<Ref>, o: Ref)
    requires HeapWF(h, u)
    requires BlackInv(h, u, c, rule, loc, skip + {o}, stuck) && o in h && o in c
    requires c[o].Black? && o !in stuck ==> BlackOk(h, u, Whites(c), rule, loc, skip + {o}, h[o])
    requires h[o].Thread? && !rule.Flagged? ==> NoneIn(Whites(c), h[o].stack) || Pending(loc, o)
    ensures BlackInv(h, u, c, rule, loc, skip, stuck)
  {
    forall r | r in h && r in c && r !in skip && r !in stuck && c[r].Black?
      ensures BlackOk(h, u, Whites(c), rule, loc, skip, h[r])
    {
      assert BlackOk(h, u, Whites(c), rule, loc, skip + {o}, h[r]);
      if h[r].LClosure? {
        var ids := h[r].upvals;
        forall i | 0 <= i < |ids| && ids[i].Some?
          ensures UvBlack(h, u, Whites(c), rule, loc, skip, ids[i].value)
        {
          assert UvBlack(h, u, Whites(c), rule, loc, skip + {o}, ids[i].value);
          var id := ids[i].value;
          if id in u { assert UvWF(h, id, u[id]); }
        }
      }
    }
  }

  lemma GrayInvMono(h: Heap, c: Colors, c': Colors, inside: bool, fixed: seq<Ref>, loc: Locs, loc': Locs, skip: set<Ref>, skip': set<Ref>, stuck: set<Ref>)
    requires GrayInv(h, c, inside, fixed, loc, skip, stuck)
    requires Whites(c') <= Whites(c)
    requires forall r :: r in h && r in c' && r in loc' && r !in skip' && r !in stuck && c'[r].Gray? ==>
               loc'[r] == GrayL || loc'[r] == AgainL || (r in c && r in loc && r !in skip && c[r].Gray? && loc'[r] == loc[r])
    ensures GrayInv(h, c', inside, fixed, loc', skip', stuck)
  {
    forall r | r in h && r in c' && r in loc' && r !in skip' && r !in stuck && c'[r].Gray?
      ensures GrayOk(Whites(c'), inside, fixed, loc'[r], r, h[r])
    {
      if loc'[r] != GrayL && loc'[r] != AgainL {
        assert GrayOk(Whites(c), inside, fixed, loc[r], r, h[r]);
        if GrayDone(Whites(c), loc[r], h[r]) {
          GrayDoneMono(Whites(c), Whites(c'), loc[r], h[r]);
        }
      }
    }
  }

  lemma GrayDoneMono(W: iset<Ref>, W': iset<Ref>, l: Loc, o: Object)
    requires GrayDone(W, l, o) && W' <= W
    ensures GrayDone(W', l, o)
  {}

  // ------------------------------------------------------- preservation: erasing

  // Flags may be set; they may be cleared only when they no longer matter.
  ghost predicate TouchKeeps(u: Upvals, u': Upvals, rule: UvRule) {
    SameUpvals(u, u') && (!rule.Remarked? ==> forall id :: id in u && u[id].Open? && u[id].touched ==> u'[id].touched)
  }

  lemma BlackOkTrim(h: Heap, u: Upvals, h': Heap, u': Upvals, W: iset<Ref>, rule: UvRule, loc: Locs, busy: set<Ref>, r: Ref)
    requires HeapWF(h, u) && Trim(h, h') && TouchKeeps(u, u', rule) && r in h
    requires BlackOk(h, u, W, rule, loc, busy, h[r])
    ensures BlackOk(h', u', W, rule, loc, busy, h'[r])
  {
    assert ObjTrim(h[r], h'[r]);
    match h[r]
    case Table(_, _, _, nodes) =>
      forall i | 0 <= i < |nodes| ensures NodeClear(W, h'[r].nodes[i]) {
        assert NodeClear(W, nodes[i]) && NodeTrim(nodes[i], h'[r].nodes[i]);
      }
    case LClosure(_, ids) =>
      forall i | 0 <= i < |ids| && ids[i].Some?
        ensures UvBlack(h', u', W, rule, loc, busy, ids[i].value)
      {
        assert UvBlack(h, u, W, rule, loc, busy, ids[i].value);
        TrimUvValue(h, u, h', u', ids[i].value);
      }
    case _ => TrimClear(h, u, h', u', W, r);
  }

  lemma BlackInvTrim(h: Heap, u: Upvals, h': Heap, u': Upvals, c: Colors, rule: UvRule, loc: Locs, skip: set<Ref>, stuck: set<Ref>)
    requires HeapWF(h, u) && Trim(h, h') && TouchKeeps(u, u', rule)
    requires BlackInv(h, u, c, rule, loc, skip, stuck)
    ensures BlackInv(h', u', c, rule, loc, skip, stuck)
  {
    forall r | r in h' && r in c && r !in skip && r !in stuck && c[r].Black?
      ensures BlackOk(h', u', Whites(c), rule, loc, skip, h'[r])
    {
      BlackOkTrim(h, u, h', u', Whites(c), rule, loc, skip, r);
    }
  }

  // Entries that have been emptied have had their keys tagged, unless the key is marked.
  ghost predicate EmptiedOk(W: iset<Ref>, ns: seq<Node>, ns': seq<Node>) {
    |ns'| == |ns| && forall i :: 0 <= i < |ns| ==> ns'[i].val == ns[i].val || KeyClear(W, ns'[i])
  }

  // The key of an entry that has been emptied is tagged dead, unless it is marked.
  ghost predicate Emptied(h: Heap, h': Heap, W: iset<Ref>) {
    forall r :: r in h && r in h' && h[r].Table? ==> h'[r].Table? && EmptiedOk(W, h[r].nodes, h'[r].nodes)
  }

  lemma EmptiedTransitive(h: Heap, h': Heap, h'': Heap, W: iset<Ref>, W': iset<Ref>)
    requires Trim(h, h') && Trim(h', h'') && Emptied(h, h', W) && Emptied(h', h'', W') && W' <= W
    ensures Emptied(h, h'', W')
  {
    forall r | r in h && r in h'' && h[r].Table? ensures h''[r].Table? && EmptiedOk(W', h[r].nodes, h''[r].nodes) {
      assert ObjTrim(h[r], h'[r]) && ObjTrim(h'[r], h''[r]);
      var ns, ns', ns'' := h[r].nodes, h'[r].nodes, h''[r].nodes;
      forall i | 0 <= i < |ns| ensures ns''[i].val == ns[i].val || KeyClear(W', ns''[i]) {
        assert NodeTrim(ns'[i], ns''[i]);
      }
    }
  }

  lemma GrayDoneErased(W: iset<Ref>, l: Loc, o: Object, o': Object)
    requires GrayDone(W, l, o) && ObjTrim(o, o') && o.Table? && EmptiedOk(W, o.nodes, o'.nodes)
    ensures GrayDone(W, l, o')
  {
    forall i | 0 <= i < |o.nodes| ensures NodeTrim(o.nodes[i], o'.nodes[i]) {}
  }

  // Objects are the same, except for those being traversed.
  ghost predicate SameOutside(h: Heap, h': Heap, skip: set<Ref>) {
    forall r :: r in h && r in h' && r !in skip ==> h'[r] == h[r]
  }

  lemma GrayInvTrim(h: Heap, h': Heap, c: Colors, inside: bool, fixed: seq<Ref>, loc: Locs, skip: set<Ref>, stuck: set<Ref>)
    requires Trim(h, h') && SameOutside(h, h', skip) && GrayInv(h, c, inside, fixed, loc, skip, stuck)
    ensures GrayInv(h', c, inside, fixed, loc, skip, stuck)
  {}

  lemma StuckTrim(h: Heap, h': Heap, c: Colors, stuck: set<Ref>)
    requires Trim(h, h') && StuckOk(h, c, stuck)
    ensures StuckOk(h', c, stuck)
  {
    forall r | r in stuck ensures ObjTrim(h[r], h'[r]) {}
  }

  lemma ExistTrim(h: Heap, u: Upvals, h': Heap, u': Upvals)
    requires HeapWF(h, u) && Trim(h, h') && SameUpvals(u, u') && Exist(h, u)
    ensures Exist(h', u')
  {
    assert Missing(h') == Missing(h);
    forall r | r in h' ensures Clear(h', u', Missing(h'), h'[r]) {
      TrimClear(h, u, h', u', Missing(h), r);
    }
  }

  lemma ObjBoundTrim(h: Heap, u: Upvals, h': Heap, u': Upvals, b: set<Ref>, r: Ref)
    requires HeapWF(h, u) && Trim(h, h') && SameUpvals(u, u') && r in h
    requires ObjBound(h, u, b, h[r])
    ensures ObjBound(h', u', b, h'[r])
  {
    assert ObjTrim(h[r], h'[r]);
    assert forall x :: x in h ==> ObjTrim(h[x], h'[x]);
    assert forall v: Value :: IsStr(h', v) ==> IsStr(h, v);
    match h[r]
    case Table(_, mode, arr, nodes) =>
      forall i | 0 <= i < |nodes| ensures EntryBound(h', b, mode, h'[r].nodes[i]) {
        assert EntryBound(h, b, mode, nodes[i]) && NodeTrim(nodes[i], h'[r].nodes[i]);
      }
      assert forall i :: 0 <= i < |arr| ==> h'[r].arr[i] == arr[i] || h'[r].arr[i].Nil?;
    case LClosure(_, ids) =>
      forall i | 0 <= i < |ids| && ids[i].Some?
        ensures InB(b, UvValue(h', u', ids[i].value))
      {
        TrimUvValue(h, u, h', u', ids[i].value);
      }
    case _ =>
  }

  lemma BoundTrim(h: Heap, u: Upvals, h': Heap, u': Upvals, stuck: set<Ref>, b: set<Ref>)
    requires HeapWF(h, u) && Trim(h, h') && SameUpvals(u, u') && BoundClosed(h, u, stuck, b)
    ensures BoundClosed(h', u', stuck, b)
  {
    forall r | r in b && r in h' && r !in stuck ensures ObjBound(h', u', b, h'[r]) {
      ObjBoundTrim(h, u, h', u', b, r);
    }
  }
}
