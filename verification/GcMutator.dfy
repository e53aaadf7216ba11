// The running program: every store goes with its barrier, as the interpreter and the
// API do it. Each operation keeps the invariant of the collector, whatever its state.

module GcMutator {
  import opened Common
  import opened GcHeap
  import opened GcInvariants
  import opened GcState
  import opened GcMark
  import opened GcAtomic
  import opened GcMachine
  import opened GcStore

  // An object the program can name, and that holds references.
  ghost predicate Names(m: Mach, r: Ref) {
    r in m.st.heap && r !in Gone(m.st) && !m.st.heap[r].Str?
  }

  lemma BarredNames(m: Mach, m': Mach, r: Ref, more: set<Ref>)
    requires Barred(m, m', more)
    ensures m'.st.heap == m.st.heap && m'.st.upv == m.st.upv && m'.phase == m.phase && Gone(m'.st) == Gone(m.st)
    ensures m'.st.stuck <= m.st.stuck
    ensures Names(m, r) ==> Names(m', r)
  {}

  // ------------------------------------------------------------------------- tables

  // A value may be put in the object r.
  ghost predicate MayHold(m: Mach, r: Ref, v: Value) {
    Usable(m.st, v) && Stainless(m, r, v)
  }

  // What a table may hold after an assignment or a rearrangement of its parts: what it
  // held before, and new values that have passed a barrier.
  predicate Held(t: Object, v: Value)
    requires t.Table?
  {
    v in t.arr || exists i :: 0 <= i < |t.nodes| && !t.nodes[i].val.Nil? && (v == t.nodes[i].key || v == t.nodes[i].val)
  }

  ghost predicate From(m: Mach, h: Ref, t: Object, t': Object)
    requires t.Table?
  {
    && t'.Table? && t'.meta == t.meta
    && (forall i :: 0 <= i < |t'.arr| ==> Held(t, t'.arr[i]) || MayHold(m, h, t'.arr[i]))
    && (forall i :: 0 <= i < |t'.nodes| ==>
          t'.nodes[i] in t.nodes ||
          (!t'.nodes[i].dead && (Held(t, t'.nodes[i].key) || MayHold(m, h, t'.nodes[i].key))
           && (Held(t, t'.nodes[i].val) || MayHold(m, h, t'.nodes[i].val))))
  }

  lemma HeldClear(bad: iset<Ref>, t: Object, v: Value)
    requires t.Table? && NoneIn(bad, t.arr) && NodesClear(bad, t.nodes) && DeadEmpty(t.nodes) && Held(t, v)
    ensures !In(bad, v)
  {
    if v !in t.arr {
      var i :| 0 <= i < |t.nodes| && !t.nodes[i].val.Nil? && (v == t.nodes[i].key || v == t.nodes[i].val);
      assert NodeClear(bad, t.nodes[i]);
    }
  }

  lemma FromClear(m: Mach, h: Ref, t: Object, t': Object)
    requires t.Table? && From(m, h, t, t') && Clear(m.st.heap, m.st.upv, Gone(m.st), t) && ObjectWF(m.st.upv, h, t)
    ensures Clear(Stored(m.st, h, t').heap, m.st.upv, Gone(m.st), t')
  {
    forall i | 0 <= i < |t'.arr| ensures !In(Gone(m.st), t'.arr[i]) {
      if Held(t, t'.arr[i]) { HeldClear(Gone(m.st), t, t'.arr[i]); }
    }
    forall i | 0 <= i < |t'.nodes| ensures NodeClear(Gone(m.st), t'.nodes[i]) {
      if t'.nodes[i] !in t.nodes {
        if Held(t, t'.nodes[i].key) { HeldClear(Gone(m.st), t, t'.nodes[i].key); }
        if Held(t, t'.nodes[i].val) { HeldClear(Gone(m.st), t, t'.nodes[i].val); }
      }
    }
  }

  lemma FromBlack(m: Mach, h: Ref, t: Object, t': Object)
    requires KeepInvariant(m.phase) && h in m.st.color && m.st.color[h].Black? && h !in m.st.stuck
    requires t.Table? && From(m, h, t, t') && BlackOk(m.st.heap, m.st.upv, Whites(m.st.color), Flagged, m.st.loc, {}, t)
    requires ObjectWF(m.st.upv, h, t)
    ensures BlackOk(Stored(m.st, h, t').heap, m.st.upv, Whites(m.st.color), Flagged, m.st.loc, {}, t')
  {
    var W := Whites(m.st.color);
    forall i | 0 <= i < |t'.arr| ensures !In(W, t'.arr[i]) {
      if Held(t, t'.arr[i]) { HeldClear(W, t, t'.arr[i]); }
    }
    forall i | 0 <= i < |t'.nodes| ensures NodeClear(W, t'.nodes[i]) {
      if t'.nodes[i] !in t.nodes {
        if Held(t, t'.nodes[i].key) { HeldClear(W, t, t'.nodes[i].key); }
        if Held(t, t'.nodes[i].val) { HeldClear(W, t, t'.nodes[i].val); }
      }
    }
  }

  lemma FromGray(m: Mach, l: Loc, h: Ref, t: Object, t': Object)
    requires t.Table? && From(m, h, t, t') && GrayOk(Whites(m.st.color), false, m.st.fixed, l, h, t)
    ensures GrayOk(Whites(m.st.color), false, m.st.fixed, l, h, t')
  {}

  lemma FromWell(m: Mach, h: Ref, t': Object)
    requires h in m.st.heap && m.st.heap[h].Table? && From(m, h, m.st.heap[h], t') && WellStored(m.st, h, m.st.heap[h])
    ensures WellStored(m.st, h, t')
  {
    var t := m.st.heap[h];
    assert Stored(m.st, h, t) == m.st;
    FromClear(m, h, t, t');
    FromWF(m.st, h, t, t', m);
    hide From, Clear, ObjectWF;
  }

  lemma FromColor(m: Mach, h: Ref, t': Object)
    requires h in m.st.heap && m.st.heap[h].Table? && From(m, h, m.st.heap[h], t') && WellStored(m.st, h, m.st.heap[h])
    requires KeepInvariant(m.phase) && h in m.st.color && h in m.st.loc && ColorOk(m.st, h, m.st.heap[h])
    ensures ColorOk(m.st, h, t')
  {
    hide From, BlackOk, GrayOk, Clear, ObjectWF;
    var t := m.st.heap[h];
    assert Stored(m.st, h, t) == m.st;
    if h !in m.st.stuck {
      if m.st.color[h].Black? { FromBlack(m, h, t, t'); }
      if m.st.color[h].Gray? { FromGray(m, m.st.loc[h], h, t, t'); }
    }
  }

  lemma FromPut(m: Mach, h: Ref, t': Object)
    requires Inv(m) && h in m.st.heap && m.st.heap[h].Table? && h !in Gone(m.st) && From(m, h, m.st.heap[h], t')
    ensures Inv(Put(m, h, t'))
  {
    hide Inv, From, WellStored, ColorOk;
    AsIs(m, h);
    FromWell(m, h, t');
    if KeepInvariant(m.phase) { FromColor(m, h, t'); }
    PutInv(m, h, t');
  }

  lemma FromWF(s: St, h: Ref, t: Object, t': Object, m: Mach)
    requires t.Table? && From(m, h, t, t') && ObjectWF(s.upv, h, t)
    ensures ObjectWF(s.upv, h, t')
  {}

  lemma NamesIn(m: Mach, r: Ref)
    requires Inv(m) && Names(m, r)
    ensures r in m.st.heap && r !in Gone(m.st) && r in m.st.color
  {
    hide Inv;
    AsIs(m, r);
  }

  // Assignment to an element of the array part.
  method SetArray(g: GlobalState, h: Ref, i: nat, v: Value)
    requires Names(Snap(g), h) && g.heap[h].Table? && i < |g.heap[h].arr| && Usable(g.View(), v) && Inv(Snap(g))
    modifies g`heap, g`color, g`grayagain, g`again, g`loc, g`stuck
    ensures g.heap == old(g.heap)[h := old(g.heap[h]).(arr := old(g.heap[h]).arr[i := v])]
    ensures Becomes(old(Snap(g)), Snap(g), g.heap, g.upv, old(g.stuck), {})
    ensures Whites(g.color) == old(Whites(g.color)) && Inv(Snap(g))
  {
    hide Inv, Barred, Becomes;
    ghost var m := Snap(g);
    BarrierBack(g, h, v);
    BarredNames(m, Snap(g), h, {});
    var t := g.heap[h];
    PutAfter(m, Snap(g), h, t.(arr := t.arr[i := v]), {});
    ArrayFrom(Snap(g), h, i, v);
    FromPut(Snap(g), h, t.(arr := t.arr[i := v]));
    g.heap := g.heap[h := t.(arr := t.arr[i := v])];
  }

  lemma ArrayFrom(m: Mach, h: Ref, i: nat, v: Value)
    requires h in m.st.heap && m.st.heap[h].Table? && i < |m.st.heap[h].arr| && MayHold(m, h, v)
    ensures From(m, h, m.st.heap[h], m.st.heap[h].(arr := m.st.heap[h].arr[i := v]))
  {}

  // Assignment to the value of a key that the table has (perhaps with a nil value).
  method SetNode(g: GlobalState, h: Ref, i: nat, v: Value)
    requires Names(Snap(g), h) && g.heap[h].Table? && i < |g.heap[h].nodes| && Usable(g.View(), v)
    requires !g.heap[h].nodes[i].dead && Inv(Snap(g))
    modifies g`heap, g`color, g`grayagain, g`again, g`loc, g`stuck
    ensures g.heap == old(g.heap)[h := old(g.heap[h]).(nodes := old(g.heap[h]).nodes[i := old(g.heap[h]).nodes[i].(val := v)])]
    ensures Becomes(old(Snap(g)), Snap(g), g.heap, g.upv, old(g.stuck), {})
    ensures Whites(g.color) == old(Whites(g.color)) && Inv(Snap(g))
  {
    hide Inv, Barred, Becomes;
    ghost var m := Snap(g);
    BarrierBack(g, h, v);
    BarredNames(m, Snap(g), h, {});
    var t := g.heap[h];
    PutAfter(m, Snap(g), h, t.(nodes := t.nodes[i := t.nodes[i].(val := v)]), {});
    NodeFrom(Snap(g), h, i, v);
    FromPut(Snap(g), h, t.(nodes := t.nodes[i := t.nodes[i].(val := v)]));
    g.heap := g.heap[h := t.(nodes := t.nodes[i := t.nodes[i].(val := v)])];
  }

  // The key of an entry of a black table is marked, unless it has been forgotten.
  lemma KeyHeld(m: Mach, h: Ref, i: nat)
    requires Inv(m) && Names(m, h) && m.st.heap[h].Table? && i < |m.st.heap[h].nodes| && !m.st.heap[h].nodes[i].dead
    ensures MayHold(m, h, m.st.heap[h].nodes[i].key)
  {
    AsIs(m, h);
    assert Stored(m.st, h, m.st.heap[h]) == m.st;
    hide Inv;
    var t := m.st.heap[h];
    assert NodeClear(Gone(m.st), t.nodes[i]);
    assert KeepInvariant(m.phase) && m.st.color[h].Black? && h !in m.st.stuck ==> NodeClear(Whites(m.st.color), t.nodes[i]);
  }

  lemma NodeFrom(m: Mach, h: Ref, i: nat, v: Value)
    requires Inv(m) && Names(m, h) && m.st.heap[h].Table? && i < |m.st.heap[h].nodes| && MayHold(m, h, v)
    requires !m.st.heap[h].nodes[i].dead
    ensures var t := m.st.heap[h];
      From(m, h, t, t.(nodes := t.nodes[i := t.nodes[i].(val := v)]))
  {
    hide Inv, MayHold, Held;
    KeyHeld(m, h, i);
    var t := m.st.heap[h];
    assert forall j :: 0 <= j < |t.nodes| ==> t.nodes[j] in t.nodes;
    ArrayHeld(t);
  }

  lemma ArrayHeld(t: Object)
    requires t.Table?
    ensures forall i :: 0 <= i < |t.arr| ==> Held(t, t.arr[i])
  {}

  // The key part of luaH_newkey: a free node gets a new key.
  method InsertKey(g: GlobalState, h: Ref, i: nat, key: Value)
    requires Names(Snap(g), h) && g.heap[h].Table? && i < |g.heap[h].nodes| && g.heap[h].nodes[i].val.Nil?
    requires Usable(g.View(), key) && Inv(Snap(g))
    modifies g`heap, g`color, g`grayagain, g`again, g`loc, g`stuck
    ensures g.heap == old(g.heap)[h := old(g.heap[h]).(nodes := old(g.heap[h]).nodes[i := Node(key, false, Nil)])]
    ensures Becomes(old(Snap(g)), Snap(g), g.heap, g.upv, old(g.stuck), {})
    ensures Whites(g.color) == old(Whites(g.color)) && Inv(Snap(g))
  {
    hide Inv, Barred, Becomes;
    ghost var m := Snap(g);
    BarrierBack(g, h, key);
    BarredNames(m, Snap(g), h, {});
    var t := g.heap[h];
    PutAfter(m, Snap(g), h, t.(nodes := t.nodes[i := Node(key, false, Nil)]), {});
    KeyFrom(Snap(g), h, i, key);
    FromPut(Snap(g), h, t.(nodes := t.nodes[i := Node(key, false, Nil)]));
    g.heap := g.heap[h := t.(nodes := t.nodes[i := Node(key, false, Nil)])];
  }

  lemma KeyFrom(m: Mach, h: Ref, i: nat, key: Value)
    requires h in m.st.heap && m.st.heap[h].Table? && i < |m.st.heap[h].nodes| && MayHold(m, h, key)
    ensures var t := m.st.heap[h];
      From(m, h, t, t.(nodes := t.nodes[i := Node(key, false, Nil)]))
  {
    var t := m.st.heap[h];
    assert MayHold(m, h, Nil);
    assert forall j :: 0 <= j < |t.nodes| ==> t.nodes[j] in t.nodes;
  }

  // Moving a colliding node, resizing, rehashing: values move, none is added.
  predicate Moved(t: Object, t': Object)
    requires t.Table?
  {
    && t'.Table? && t'.meta == t.meta && t'.mode == t.mode
    && (forall i :: 0 <= i < |t'.arr| ==> !t'.arr[i].Obj? || Held(t, t'.arr[i]))
    && (forall i :: 0 <= i < |t'.nodes| ==>
          t'.nodes[i] in t.nodes ||
          (!t'.nodes[i].dead && (!t'.nodes[i].key.Obj? || Held(t, t'.nodes[i].key))
           && (!t'.nodes[i].val.Obj? || Held(t, t'.nodes[i].val))))
  }

  method Rearrange(g: GlobalState, h: Ref, arr: seq<Value>, nodes: seq<Node>)
    requires Names(Snap(g), h) && g.heap[h].Table? && Moved(g.heap[h], g.heap[h].(arr := arr, nodes := nodes)) && Inv(Snap(g))
    modifies g`heap
    ensures g.heap == old(g.heap)[h := old(g.heap[h]).(arr := arr, nodes := nodes)]
    ensures Inv(Snap(g))
  {
    hide Inv, Moved;
    MovedFrom(Snap(g), h, g.heap[h], g.heap[h].(arr := arr, nodes := nodes));
    FromPut(Snap(g), h, g.heap[h].(arr := arr, nodes := nodes));
    g.heap := g.heap[h := g.heap[h].(arr := arr, nodes := nodes)];
  }

  lemma MovedFrom(m: Mach, h: Ref, t: Object, t': Object)
    requires t.Table? && Moved(t, t')
    ensures From(m, h, t, t')
  {
    assert forall v: Value :: !v.Obj? ==> MayHold(m, h, v);
  }

  // Assignment to the field __mode of a metatable, as seen by a table that has it.
  method SetMode(g: GlobalState, h: Ref, mode: Mode)
    requires Names(Snap(g), h) && g.heap[h].Table? && Inv(Snap(g))
    modifies g`heap
    ensures g.heap == old(g.heap)[h := old(g.heap[h]).(mode := mode)]
    ensures Inv(Snap(g))
  {
    hide Inv;
    ModeFrom(Snap(g), h, g.heap[h], mode);
    FromPut(Snap(g), h, g.heap[h].(mode := mode));
    g.heap := g.heap[h := g.heap[h].(mode := mode)];
  }

  lemma ModeFrom(m: Mach, h: Ref, t: Object, mode: Mode)
    requires t.Table?
    ensures From(m, h, t, t.(mode := mode))
  {
    assert forall j :: 0 <= j < |t.nodes| ==> t.nodes[j] in t.nodes;
    assert forall j :: 0 <= j < |t.arr| ==> t.arr[j] in t.arr;
  }

  // --------------------------------------------------------------------- metatables

  // An all-weak table is linked in 'allweak' as soon as it is visited, and it stays
  // gray; the barrier does nothing for gray objects, and the table will not be visited
  // again. So a new metatable that is still unmarked is not marked for its sake.
  ghost predicate LeavesUnmarked(m: Mach, h: Ref, mt: Option<Ref>) {
    KeepInvariant(m.phase) && h in m.st.allweak && mt.Some? && IsWhite(m.st.color, mt.value)
  }

  function WithMeta(o: Object, mt: Option<Ref>, mode: Mode): Object
    requires o.Table? || o.Udata?
  {
    if o.Table? then o.(meta := mt, mode := mode) else o.(umeta := mt)
  }

  ghost predicate MetaOk(m: Mach, h: Ref, mt: Option<Ref>) {
    mt.Some? ==> MayHold(m, h, Obj(mt.value))
  }

  // The table is stuck then.
  ghost function Stick(m: Mach, h: Ref, mt: Option<Ref>): Mach {
    if LeavesUnmarked(m, h, mt) then m.(st := m.st.(stuck := m.st.stuck + {h})) else m
  }

  lemma MetaWell(m: Mach, h: Ref, mt: Option<Ref>, mode: Mode)
    requires h in m.st.heap && (m.st.heap[h].Table? || m.st.heap[h].Udata?) && MetaOk(m, h, mt)
    requires WellStored(m.st, h, m.st.heap[h])
    ensures WellStored(m.st, h, WithMeta(m.st.heap[h], mt, mode))
  {
    assert Stored(m.st, h, m.st.heap[h]) == m.st;
  }

  lemma MetaColor(m: Mach, h: Ref, mt: Option<Ref>, mode: Mode)
    requires h in m.st.heap && (m.st.heap[h].Table? || m.st.heap[h].Udata?) && MetaOk(m, h, mt)
    requires h in m.st.color && h in m.st.loc && ColorOk(m.st, h, m.st.heap[h]) && KeepInvariant(m.phase)
    requires h in m.st.stuck || (m.st.loc[h] == AllWeakL && mt.Some? ==> !IsWhite(m.st.color, mt.value))
    ensures ColorOk(m.st, h, WithMeta(m.st.heap[h], mt, mode))
  {
    assert Stored(m.st, h, m.st.heap[h]) == m.st;
    if h !in m.st.stuck {
      var o, o', W := m.st.heap[h], WithMeta(m.st.heap[h], mt, mode), Whites(m.st.color);
      assert mt.Some? && (m.st.color[h].Black? || m.st.loc[h] == AllWeakL) ==> mt.value !in W;
      if m.st.color[h].Gray? { MetaGray(m.st, m.st.loc[h], h, o, o'); }
    }
  }

  lemma MetaGray(s: St, l: Loc, h: Ref, o: Object, o': Object)
    requires GrayOk(Whites(s.color), false, s.fixed, l, h, o) && (o.Table? || o.Udata?)
    requires o.Table? ==> o'.Table? && (l == AllWeakL ==> !OptIn(Whites(s.color), o'.meta))
    ensures GrayOk(Whites(s.color), false, s.fixed, l, h, o')
  {}

  lemma AllWeakLinked(s: St, h: Ref)
    requires MarkInv(s, {}) && !s.inside && h in s.heap
    ensures h in s.loc && (s.loc[h] == AllWeakL <==> h in s.allweak)
    ensures s.loc[h] == AllWeakL ==> s.heap[h].Table? && !IsWhite(s.color, h)
  {
    GrayLists(s, h);
    assert Merged(s.loc)[h] == AllWeakL <==> s.loc[h] == AllWeakL;
    hide HeapWF, Exist, NoDead, FixedOk, TwupsOk, StuckOk, BlackInv, GrayInv, BoundClosed, MarkedWithin;
  }

  lemma StickMark(s: St, h: Ref)
    requires MarkInv(s, {}) && h in s.heap && h in s.loc && s.loc[h] == AllWeakL && s.heap[h].Table? && !IsWhite(s.color, h)
    ensures MarkInv(s.(stuck := s.stuck + {h}), {})
  {
    StickRest(s, h);
    hide HeapWF, Exist, Lists, LocsOk, NoDead, FixedOk, TwupsOk, StuckOk, StuckPlaces, BlackInv, GrayInv, BoundClosed, MarkedWithin;
  }

  lemma StickRest(s: St, h: Ref)
    requires MarkInv(s, {}) && h in s.heap && h in s.loc && s.loc[h] == AllWeakL && s.heap[h].Table? && !IsWhite(s.color, h)
    ensures var stuck := s.stuck + {h};
      && StuckOk(s.heap, s.color, stuck) && StuckPlaces(s.loc, stuck)
      && BlackInv(s.heap, s.upv, s.color, Rule(s), s.loc, {}, stuck)
      && GrayInv(s.heap, s.color, s.inside, s.fixed, s.loc, {}, stuck)
      && BoundClosed(s.heap, s.upv, stuck, s.bound)
  {
    hide HeapWF, Exist, Lists, NoDead, FixedOk, TwupsOk, MarkedWithin, BlackOk, GrayOk, ObjBound;
  }

  lemma StickRoots(m: Mach, h: Ref, mt: Option<Ref>)
    requires RootsLive(m) && Partition(m)
    ensures RootsLive(Stick(m, h, mt)) && Partition(Stick(m, h, mt)) && Gone(Stick(m, h, mt).st) == Gone(m.st)
  {
    assert Gone(Stick(m, h, mt).st) == Gone(m.st);
  }

  lemma StickInv(m: Mach, h: Ref, mt: Option<Ref>)
    requires Inv(m) && h in m.st.heap
    ensures Inv(Stick(m, h, mt)) && Gone(Stick(m, h, mt).st) == Gone(m.st)
  {
    hide Inv, RootsLive, Partition, MarkInv, Gone;
    InvRoots(m);
    StickRoots(m, h, mt);
    if LeavesUnmarked(m, h, mt) {
      InvMark(m);
      AllWeakLinked(m.st, h);
      StickMark(m.st, h);
      InvMark(Stick(m, h, mt));
    }
  }

  lemma StickOk(m: Mach, h: Ref, mt: Option<Ref>)
    requires MetaOk(m, h, mt) && Gone(Stick(m, h, mt).st) == Gone(m.st)
    ensures MetaOk(Stick(m, h, mt), h, mt)
  {}

  lemma MetaInv(m: Mach, h: Ref, mt: Option<Ref>, mode: Mode)
    requires Inv(m) && Names(m, h) && (m.st.heap[h].Table? || m.st.heap[h].Udata?) && MetaOk(m, h, mt)
    ensures Inv(Put(Stick(m, h, mt), h, WithMeta(m.st.heap[h], mt, mode)))
  {
    hide Inv, WellStored, ColorOk, MarkInv, RootsLive, Partition, BlackOk, MetaOk, Gone;
    var m1 := Stick(m, h, mt);
    StickInv(m, h, mt);
    StickOk(m, h, mt);
    AsIs(m1, h);
    MetaWell(m1, h, mt, mode);
    if KeepInvariant(m.phase) {
      InvMark(m);
      AllWeakLinked(m.st, h);
      MetaColor(m1, h, mt, mode);
    }
    PutInv(m1, h, WithMeta(m.st.heap[h], mt, mode));
  }

  // setmetatable, with luaC_objbarrier. The barrier marks the metatable of a black
  // object; it does nothing for a table that is in 'allweak', which gets stuck.
  method SetMetatable(g: GlobalState, h: Ref, mt: Option<Ref>, mode: Mode)
    requires Names(Snap(g), h) && (g.heap[h].Table? || g.heap[h].Udata?)
    requires (mt.Some? ==> Usable(g.View(), Obj(mt.value))) && Inv(Snap(g))
    modifies g`heap, g`color, g`gray, g`loc, g`stuck
    ensures g.heap == old(g.heap)[h := WithMeta(old(g.heap[h]), mt, mode)]
    ensures LeavesUnmarked(old(Snap(g)), h, mt) ==> h in g.stuck && IsWhite(g.color, mt.value)
    ensures !LeavesUnmarked(old(Snap(g)), h, mt) ==> g.stuck <= old(g.stuck)
    ensures Becomes(old(Snap(g)), Snap(g), g.heap, g.upv, old(Stick(Snap(g), h, mt).st.stuck), OptRefs(mt))
    ensures Inv(Snap(g)) && Gone(g.View()) == Gone(old(g.View()))
  {
    hide Inv, Barred, Becomes, WithMeta, Gone, LeavesUnmarked;
    ghost var m := Snap(g);
    BarredReflexive(m);
    if mt.Some? {
      Barrier(g, h, Obj(mt.value));
    }
    BarredNames(m, Snap(g), h, OptRefs(mt));
    MetaSame(m, Snap(g), h, mt, OptRefs(mt));
    ghost var m1 := Snap(g);
    MetaLeft(m, m1, h, mt, OptRefs(mt));
    StoreMeta(g, h, mt, mode);
    MetaAfter(m, m1, h, mt, WithMeta(m.st.heap[h], mt, mode), OptRefs(mt));
  }

  method StoreMeta(g: GlobalState, h: Ref, mt: Option<Ref>, mode: Mode)
    requires Names(Snap(g), h) && (g.heap[h].Table? || g.heap[h].Udata?) && MetaOk(Snap(g), h, mt) && Inv(Snap(g))
    modifies g`heap, g`stuck
    ensures g.heap == old(g.heap)[h := WithMeta(old(g.heap[h]), mt, mode)]
    ensures Snap(g) == Put(Stick(old(Snap(g)), h, mt), h, WithMeta(old(g.heap[h]), mt, mode))
    ensures g.stuck == if LeavesUnmarked(old(Snap(g)), h, mt) then old(g.stuck) + {h} else old(g.stuck)
    ensures Inv(Snap(g)) && Gone(g.View()) == Gone(old(g.View()))
  {
    hide Inv, WithMeta, Gone, LeavesUnmarked, MetaOk;
    ghost var m := Snap(g);
    MetaInv(m, h, mt, mode);
    MetaGone(m, h, mt, mode);
    g.heap := g.heap[h := WithMeta(g.heap[h], mt, mode)];
    g.stuck := if LeavesUnmarked(m, h, mt) then g.stuck + {h} else g.stuck;
  }

  // What the barrier has left white had been white before.
  lemma MetaLeft(m: Mach, m1: Mach, h: Ref, mt: Option<Ref>, more: set<Ref>)
    requires Barred(m, m1, more)
    ensures LeavesUnmarked(m1, h, mt) ==> LeavesUnmarked(m, h, mt)
    ensures Stick(m1, h, mt).st.stuck <= Stick(m, h, mt).st.stuck
  {
    hide Gone;
    if LeavesUnmarked(m1, h, mt) {
      assert mt.value in Whites(m1.st.color);
    }
  }

  lemma MetaAfter(m: Mach, m1: Mach, h: Ref, mt: Option<Ref>, o': Object, more: set<Ref>)
    requires Barred(m, m1, more) && h in m.st.heap
    ensures Becomes(m, Put(Stick(m1, h, mt), h, o'), m.st.heap[h := o'], m.st.upv, Stick(m, h, mt).st.stuck, more)
  {
    hide LeavesUnmarked;
    MetaLeft(m, m1, h, mt, more);
    hide Whites;
    assert Gone(Put(Stick(m1, h, mt), h, o').st) == Gone(m1.st);
  }

  lemma MetaGone(m: Mach, h: Ref, mt: Option<Ref>, mode: Mode)
    requires h in m.st.heap && (m.st.heap[h].Table? || m.st.heap[h].Udata?)
    ensures Gone(Put(Stick(m, h, mt), h, WithMeta(m.st.heap[h], mt, mode)).st) == Gone(m.st)
  {}

  // A table in 'allweak' is gray: its barrier marks nothing.
  lemma MetaSame(m: Mach, m': Mach, h: Ref, mt: Option<Ref>, more: set<Ref>)
    requires Inv(m) && Names(m, h) && Barred(m, m', more)
    requires m' == m || (mt.Some? && NeedsBarrier(m.st.color, h, Obj(mt.value)))
    ensures LeavesUnmarked(m, h, mt) ==> m' == m && mt.Some? && IsWhite(m.st.color, mt.value)
  {
    hide RootsLive, Partition, MarkInv;
    if m' != m && KeepInvariant(m.phase) {
      InvMark(m);
      AllWeakLinked(m.st, h);
      GrayLists(m.st, h);
    }
  }

  // ---------------------------------------------- stores with the forward barrier

  // The objects with a forward barrier hold the same as before, or v as well.
  ghost predicate Adds(o: Object, o': Object, v: Value) {
    match o
    case Udata(mt, uv) => o'.Udata? && o'.umeta == mt && o'.uservalue in {uv, v}
    case CClosure(vs) => o'.CClosure? && |o'.upvalue| == |vs| && forall i :: 0 <= i < |vs| ==> o'.upvalue[i] in {vs[i], v}
    case Proto(k, parts, cache) =>
      && o'.Proto? && o'.cache == cache && |o'.k| == |k| && |o'.parts| == |parts|
      && (forall i :: 0 <= i < |k| ==> o'.k[i] in {k[i], v})
      && (forall i :: 0 <= i < |parts| ==> o'.parts[i] == parts[i] || (o'.parts[i].Some? && v == Obj(o'.parts[i].value)))
    case _ => false
  }

  lemma AddsClear(h: Heap, h': Heap, u: Upvals, bad: iset<Ref>, o: Object, o': Object, v: Value)
    requires Adds(o, o', v) && Clear(h, u, bad, o) && !In(bad, v)
    ensures Clear(h', u, bad, o')
  {}

  lemma AddsPut(m: Mach, r: Ref, o': Object, v: Value)
    requires Inv(m) && Names(m, r) && Adds(m.st.heap[r], o', v) && MayHold(m, r, v)
    ensures Inv(Put(m, r, o'))
  {
    hide Inv;
    AsIs(m, r);
    var o, h' := m.st.heap[r], Stored(m.st, r, o').heap;
    assert Stored(m.st, r, o) == m.st;
    AddsClear(m.st.heap, h', m.st.upv, Gone(m.st), o, o', v);
    if KeepInvariant(m.phase) {
      if m.st.color[r].Black? && r !in m.st.stuck { AddsClear(m.st.heap, h', m.st.upv, Whites(m.st.color), o, o', v); }
      hide Clear;
    }
    hide Clear;
    PutInv(m, r, o');
  }

  // lua_setuservalue.
  method SetUserValue(g: GlobalState, o: Ref, v: Value)
    requires Names(Snap(g), o) && g.heap[o].Udata? && Usable(g.View(), v) && Inv(Snap(g))
    modifies g`heap, g`color, g`gray, g`loc, g`stuck
    ensures g.heap == old(g.heap)[o := old(g.heap[o]).(uservalue := v)]
    ensures Becomes(old(Snap(g)), Snap(g), g.heap, g.upv, old(g.stuck), ValueRefs(v))
    ensures Inv(Snap(g))
  {
    hide Inv, Barred, Becomes;
    ghost var m := Snap(g);
    Barrier(g, o, v);
    BarredNames(m, Snap(g), o, ValueRefs(v));
    PutAfter(m, Snap(g), o, g.heap[o].(uservalue := v), ValueRefs(v));
    AddsPut(Snap(g), o, g.heap[o].(uservalue := v), v);
    g.heap := g.heap[o := g.heap[o].(uservalue := v)];
  }

  // Assignment to an upvalue of a C function.
  method SetCUpvalue(g: GlobalState, o: Ref, i: nat, v: Value)
    requires Names(Snap(g), o) && g.heap[o].CClosure? && i < |g.heap[o].upvalue| && Usable(g.View(), v) && Inv(Snap(g))
    modifies g`heap, g`color, g`gray, g`loc, g`stuck
    ensures g.heap == old(g.heap)[o := CClosure(old(g.heap[o]).upvalue[i := v])]
    ensures Becomes(old(Snap(g)), Snap(g), g.heap, g.upv, old(g.stuck), ValueRefs(v))
    ensures Inv(Snap(g))
  {
    hide Inv, Barred, Becomes;
    ghost var m := Snap(g);
    Barrier(g, o, v);
    BarredNames(m, Snap(g), o, ValueRefs(v));
    PutAfter(m, Snap(g), o, CClosure(g.heap[o].upvalue[i := v]), ValueRefs(v));
    AddsPut(Snap(g), o, CClosure(g.heap[o].upvalue[i := v]), v);
    g.heap := g.heap[o := CClosure(g.heap[o].upvalue[i := v])];
  }

  // The parser adds a constant to a prototype.
  method SetConstant(g: GlobalState, o: Ref, i: nat, v: Value)
    requires Names(Snap(g), o) && g.heap[o].Proto? && i < |g.heap[o].k| && Usable(g.View(), v) && Inv(Snap(g))
    modifies g`heap, g`color, g`gray, g`loc, g`stuck
    ensures g.heap == old(g.heap)[o := old(g.heap[o]).(k := old(g.heap[o]).k[i := v])]
    ensures Becomes(old(Snap(g)), Snap(g), g.heap, g.upv, old(g.stuck), ValueRefs(v))
    ensures Inv(Snap(g))
  {
    hide Inv, Barred, Becomes;
    ghost var m := Snap(g);
    Barrier(g, o, v);
    BarredNames(m, Snap(g), o, ValueRefs(v));
    PutAfter(m, Snap(g), o, g.heap[o].(k := g.heap[o].k[i := v]), ValueRefs(v));
    AddsPut(Snap(g), o, g.heap[o].(k := g.heap[o].k[i := v]), v);
    g.heap := g.heap[o := g.heap[o].(k := g.heap[o].k[i := v])];
  }

  // ... or a name, or a nested prototype.
  method SetPart(g: GlobalState, o: Ref, i: nat, r: Ref)
    requires Names(Snap(g), o) && g.heap[o].Proto? && i < |g.heap[o].parts| && Usable(g.View(), Obj(r)) && Inv(Snap(g))
    modifies g`heap, g`color, g`gray, g`loc, g`stuck
    ensures g.heap == old(g.heap)[o := old(g.heap[o]).(parts := old(g.heap[o]).parts[i := Some(r)])]
    ensures Becomes(old(Snap(g)), Snap(g), g.heap, g.upv, old(g.stuck), {r})
    ensures Inv(Snap(g))
  {
    hide Inv, Barred, Becomes;
    ghost var m := Snap(g);
    Barrier(g, o, Obj(r));
    BarredNames(m, Snap(g), o, {r});
    PutAfter(m, Snap(g), o, g.heap[o].(parts := g.heap[o].parts[i := Some(r)]), {r});
    AddsPut(Snap(g), o, g.heap[o].(parts := g.heap[o].parts[i := Some(r)]), Obj(r));
    g.heap := g.heap[o := g.heap[o].(parts := g.heap[o].parts[i := Some(r)])];
  }

  // pushclosure remembers the new closure in its prototype, unless that would break
  // the invariant.
  method SetCache(g: GlobalState, o: Ref, cl: Ref)
    requires Names(Snap(g), o) && g.heap[o].Proto? && Usable(g.View(), Obj(cl)) && Inv(Snap(g))
    modifies g`heap
    ensures g.heap == if o in g.color && g.color[o].Black? then old(g.heap) else old(g.heap)[o := old(g.heap[o]).(cache := Some(cl))]
    ensures Inv(Snap(g))
  {
    hide Inv;
    NamesIn(Snap(g), o);
    if !g.color[o].Black? {
      CachePut(Snap(g), o, cl);
      g.heap := g.heap[o := g.heap[o].(cache := Some(cl))];
    }
  }

  lemma CachePut(m: Mach, o: Ref, cl: Ref)
    requires Inv(m) && Names(m, o) && m.st.heap[o].Proto? && Usable(m.st, Obj(cl))
    requires o in m.st.color && !m.st.color[o].Black?
    ensures Inv(Put(m, o, m.st.heap[o].(cache := Some(cl))))
  {
    hide Inv;
    AsIs(m, o);
    assert Stored(m.st, o, m.st.heap[o]) == m.st;
    PutInv(m, o, m.st.heap[o].(cache := Some(cl)));
  }

  // ------------------------------------------------------------------------- stacks

  ghost predicate NewStack(m: Mach, th: Ref, t: Object, stack: seq<Value>, top: nat)
    requires t.Thread?
  {
    && top <= |stack| && (forall id :: id in t.openupval && id in m.st.upv && m.st.upv[id].Open? ==> m.st.upv[id].slot < top)
    && forall i :: 0 <= i < |stack| ==> stack[i] in t.stack || Usable(m.st, stack[i])
  }

  lemma ThreadPending(m: Mach, th: Ref)
    requires Inv(m) && Names(m, th) && m.st.heap[th].Thread?
    ensures KeepInvariant(m.phase) ==> th in m.st.loc && m.st.loc[th] != AllWeakL
  {
    hide RootsLive, Partition, MarkInv;
    if KeepInvariant(m.phase) {
      InvMark(m);
      GrayLists(m.st, th);
    }
  }

  // Threads are never black, so a stack needs no barrier.
  lemma StackPut(m: Mach, th: Ref, stack: seq<Value>, top: nat)
    requires Inv(m) && Names(m, th) && m.st.heap[th].Thread? && NewStack(m, th, m.st.heap[th], stack, top)
    ensures Inv(Put(m, th, m.st.heap[th].(stack := stack, top := top)))
  {
    hide Inv;
    AsIs(m, th);
    var t := m.st.heap[th];
    assert Stored(m.st, th, t) == m.st;
    ThreadPending(m, th);
    forall i | 0 <= i < |stack| ensures !In(Gone(m.st), stack[i]) {
      if stack[i] in t.stack { var j :| 0 <= j < |t.stack| && t.stack[j] == stack[i]; }
    }
    PutInv(m, th, t.(stack := stack, top := top));
  }

  method SetStack(g: GlobalState, th: Ref, i: nat, v: Value)
    requires Names(Snap(g), th) && g.heap[th].Thread? && i < |g.heap[th].stack| && Usable(g.View(), v) && Inv(Snap(g))
    modifies g`heap
    ensures g.heap == old(g.heap)[th := old(g.heap[th]).(stack := old(g.heap[th]).stack[i := v])]
    ensures Inv(Snap(g))
  {
    hide Inv;
    var t := g.heap[th];
    ThreadFacts(Snap(g), th);
    assert forall j :: 0 <= j < |t.stack| ==> t.stack[j] in t.stack;
    StackPut(Snap(g), th, t.stack[i := v], t.top);
    g.heap := g.heap[th := t.(stack := t.stack[i := v])];
  }

  lemma ThreadFacts(m: Mach, th: Ref)
    requires Inv(m) && Names(m, th) && m.st.heap[th].Thread?
    ensures ThreadWF(m.st.upv, th, m.st.heap[th])
  {
    hide Inv;
    AsIs(m, th);
  }

  // A stack of another size; new slots are nil.
  function Resized(stack: seq<Value>, size: nat): seq<Value> {
    if size <= |stack| then stack[..size] else stack + seq(size - |stack|, _ => Nil)
  }

  // Changes of 'top' and of the size of the stack.
  method Resize(g: GlobalState, th: Ref, size: nat, top: nat)
    requires Names(Snap(g), th) && g.heap[th].Thread? && top <= size
    requires (forall id :: id in g.heap[th].openupval && id in g.upv && g.upv[id].Open? ==> g.upv[id].slot < top) && Inv(Snap(g))
    modifies g`heap
    ensures th in g.heap && g.heap[th].Thread? && |g.heap[th].stack| == size
    ensures forall i :: 0 <= i < size ==> g.heap[th].stack[i] == StackAt(old(g.heap), th, i)
    ensures g.heap == old(g.heap)[th := old(g.heap[th]).(stack := Resized(old(g.heap[th].stack), size), top := top)]
    ensures Inv(Snap(g))
  {
    hide Inv;
    var t := g.heap[th];
    var stack := Resized(t.stack, size);
    StackPut(Snap(g), th, stack, top);
    g.heap := g.heap[th := t.(stack := stack, top := top)];
  }
}
