// Upvalues under the collector: finding, closing, assigning and joining them.

module GcUpvalues {
  import opened Common
  import opened GcHeap
  import opened GcInvariants
  import opened GcState
  import opened GcMark
  import opened GcConverge
  import opened GcMachine
  import opened GcStore
  import opened GcMutator

  // Objects are the same, except for the lists of open upvalues of threads.
  ghost predicate SameBut(h: Heap, h': Heap) {
    && h'.Keys == h.Keys
    && forall r :: r in h ==>
         if h[r].Thread? then h'[r].Thread? && h'[r] == h[r].(openupval := h'[r].openupval) else h'[r] == h[r]
  }

  // What an upvalue that existed before denotes is outside 'bad' if it was before.
  ghost predicate ValuesStay(s: St, s': St, bad: iset<Ref>) {
    forall id :: id in s.upv ==>
      id in s'.upv && (In(bad, UvValue(s'.heap, s'.upv, id)) ==> In(bad, UvValue(s.heap, s.upv, id)))
  }

  // ... and it is as black closures need it.
  ghost predicate BlacksStay(s: St, s': St) {
    forall id :: id in s.upv ==>
      id in s'.upv &&
      (UvBlack(s.heap, s.upv, Whites(s.color), Flagged, s.loc, {}, id) ==>
       UvBlack(s'.heap, s'.upv, Whites(s.color), Flagged, s.loc, {}, id))
  }

  ghost predicate UvStep(s: St, s': St) {
    && s' == s.(heap := s'.heap, upv := s'.upv, twups := s'.twups)
    && HeapWF(s'.heap, s'.upv) && SameBut(s.heap, s'.heap) && ValuesStay(s, s', Gone(s))
    && NoDup(s'.twups)
    && (forall th :: th in s'.twups ==> th in s.twups || (IsThread(s.heap, th) && th !in Gone(s)))
    && (forall th :: th in s.twups ==> th in s'.twups)
    && (forall th :: IsThread(s.heap, th) && s.heap[th].openupval == [] && s'.heap[th].openupval != [] ==> th in s'.twups)
  }

  lemma UvClear(s: St, s': St, bad: iset<Ref>, r: Ref)
    requires HeapWF(s.heap, s.upv) && SameBut(s.heap, s'.heap) && ValuesStay(s, s', bad)
    requires r in s.heap && Clear(s.heap, s.upv, bad, s.heap[r])
    ensures Clear(s'.heap, s'.upv, bad, s'.heap[r])
  {
    assert ObjectWF(s.upv, r, s.heap[r]);
  }

  lemma UvRest(s: St, s': St)
    requires RestOk(s) && Sound(s) && UvStep(s, s')
    ensures RestOk(s') && Sound(s') && Gone(s') == Gone(s)
  {
    assert Gone(s') == Gone(s);
    forall r | r in s'.heap && r !in Gone(s') ensures Clear(s'.heap, s'.upv, Gone(s'), s'.heap[r]) {
      UvClear(s, s', Gone(s), r);
    }
    hide HeapWF, Clear, ValuesStay;
    UvKinds(s, s');
    assert TwupsLive(s');
  }

  lemma UvKinds(s: St, s': St)
    requires SameBut(s.heap, s'.heap) && FixedOk(s.heap, s.color, s.fixed) && StuckOk(s.heap, s.color, s.stuck)
    ensures FixedOk(s'.heap, s.color, s.fixed) && StuckOk(s'.heap, s.color, s.stuck)
  {}

  lemma UvBlacks(s: St, s': St)
    requires HeapWF(s.heap, s.upv) && SameBut(s.heap, s'.heap) && BlacksStay(s, s')
    requires BlackInv(s.heap, s.upv, s.color, Flagged, s.loc, {}, s.stuck)
    ensures BlackInv(s'.heap, s'.upv, s.color, Flagged, s.loc, {}, s.stuck)
  {
    forall r | r in s'.heap && r in s.color && r !in s.stuck && s.color[r].Black?
      ensures BlackOk(s'.heap, s'.upv, Whites(s.color), Flagged, s.loc, {}, s'.heap[r])
    {
      assert BlackOk(s.heap, s.upv, Whites(s.color), Flagged, s.loc, {}, s.heap[r]) && ObjectWF(s.upv, r, s.heap[r]);
      if s.heap[r].LClosure? {
        forall i | 0 <= i < |s.heap[r].upvals| && s.heap[r].upvals[i].Some?
          ensures UvBlack(s'.heap, s'.upv, Whites(s.color), Flagged, s.loc, {}, s'.heap[r].upvals[i].value)
        {
          assert UvBlack(s.heap, s.upv, Whites(s.color), Flagged, s.loc, {}, s.heap[r].upvals[i].value);
        }
      }
    }
  }

  lemma UvGrays(s: St, s': St)
    requires SameBut(s.heap, s'.heap) && GrayInv(s.heap, s.color, false, s.fixed, s.loc, {}, s.stuck) && LocsOk(s.heap, s.color, s.loc)
    ensures GrayInv(s'.heap, s.color, false, s.fixed, s.loc, {}, s.stuck) && LocsOk(s'.heap, s.color, s.loc)
  {
    forall r | r in s'.heap && r in s.color && r in s.loc && r !in s.stuck && s.color[r].Gray?
      ensures GrayOk(Whites(s.color), false, s.fixed, s.loc[r], r, s'.heap[r])
    {
      assert GrayOk(Whites(s.color), false, s.fixed, s.loc[r], r, s.heap[r]);
    }
  }

  lemma UvTwups(s: St, s': St)
    requires UvStep(s, s') && TwupsOk(s.heap, s.color, s.loc, s.twups, false, false, {})
    ensures TwupsOk(s'.heap, s'.color, s'.loc, s'.twups, false, false, {})
  {
    hide HeapWF, ValuesStay;
  }

  lemma UvExist(s: St, s': St)
    requires UvStep(s, s') && Exist(s.heap, s.upv) && HeapWF(s.heap, s.upv) && Gone(s) == Missing(s.heap)
    ensures Exist(s'.heap, s'.upv)
  {
    assert Missing(s'.heap) == Missing(s.heap);
    forall r | r in s'.heap ensures Clear(s'.heap, s'.upv, Missing(s'.heap), s'.heap[r]) {
      UvClear(s, s', Gone(s), r);
    }
  }

  lemma UvMark(s: St, s': St)
    requires MarkInv(s, {}) && !s.inside && !s.remarked && s.bound == s.heap.Keys && UvStep(s, s') && BlacksStay(s, s')
    ensures MarkInv(s', {})
  {
    MarkSound(s);
    UvBlacks(s, s');
    UvGrays(s, s');
    UvTwups(s, s');
    UvExist(s, s');
    UvKinds(s, s');
    AllClosed(s'.heap, s'.upv, s'.stuck);
    assert s'.heap.Keys == s.heap.Keys;
    hide HeapWF, Exist, Lists, LocsOk, NoDead, FixedOk, TwupsOk, StuckOk, StuckPlaces, BlackInv, GrayInv, BoundClosed, MarkedWithin, Sound, SameBut, ValuesStay, BlacksStay;
  }

  ghost function Step(m: Mach, s': St): Mach {
    m.(st := s')
  }

  lemma UvRoots(m: Mach, s': St)
    requires RootsLive(m) && Partition(m) && UvStep(m.st, s')
    ensures RootsLive(Step(m, s')) && Partition(Step(m, s'))
  {
    assert Gone(s') == Gone(m.st);
    assert s'.heap.Keys == m.st.heap.Keys;
    hide HeapWF, ValuesStay;
  }

  lemma UvInv(m: Mach, s': St)
    requires Inv(m) && UvStep(m.st, s') && (KeepInvariant(m.phase) ==> BlacksStay(m.st, s'))
    ensures Inv(Step(m, s'))
  {
    hide Inv, RootsLive, Partition, RestOk, Sound, MarkInv, UvStep, BlacksStay;
    if KeepInvariant(m.phase) {
      InvMark(m);
      UvRoots(m, s');
      UvMark(m.st, s');
      UvKeys(m.st, s');
      InvMark(Step(m, s'));
    } else {
      InvRest(m);
      UvRoots(m, s');
      UvRest(m.st, s');
      UvKeys(m.st, s');
      InvRest(Step(m, s'));
    }
  }

  lemma UvKeys(s: St, s': St)
    requires UvStep(s, s')
    ensures s'.heap.Keys == s.heap.Keys && s' == s.(heap := s'.heap, upv := s'.upv, twups := s'.twups)
  {}

  // ------------------------------------------------------------------ luaF_findupval

  function Inserted(ids: seq<UvId>, p: nat, id: UvId): seq<UvId>
    requires p <= |ids|
  {
    ids[..p] + [id] + ids[p..]
  }

  lemma InsertedMembers(ids: seq<UvId>, p: nat, id: UvId)
    requires p <= |ids| && id !in ids && NoDup(ids)
    ensures NoDup(Inserted(ids, p, id)) && forall x :: x in Inserted(ids, p, id) <==> x in ids || x == id
  {
    assert forall x :: x in ids <==> x in ids[..p] || x in ids[p..];
  }

  ghost function Found(s: St, th: Ref, p: nat, id: UvId, level: nat): St
    requires th in s.heap && s.heap[th].Thread? && p <= |s.heap[th].openupval|
  {
    s.(heap := s.heap[th := s.heap[th].(openupval := Inserted(s.heap[th].openupval, p, id))],
       upv := s.upv[id := Open(th, level, true)],
       twups := if th in s.twups then s.twups else [th] + s.twups)
  }

  // Position p is where the upvalue of the slot belongs, and the slot has none yet.
  ghost predicate Place(ids: seq<UvId>, u: Upvals, p: nat, level: nat) {
    && p <= |ids| && (forall id :: id in ids ==> id in u && u[id].Open?)
    && (forall i :: 0 <= i < p ==> u[ids[i]].slot > level)
    && (forall i :: p <= i < |ids| ==> u[ids[i]].slot < level)
  }

  lemma InsertedDescends(ids: seq<UvId>, u: Upvals, th: Ref, p: nat, id: UvId, level: nat)
    requires Place(ids, u, p, level) && Descending(u, ids) && id !in u
    ensures Descending(u[id := Open(th, level, true)], Inserted(ids, p, id))
  {
    var ids', u' := Inserted(ids, p, id), u[id := Open(th, level, true)];
    forall i | 0 <= i < |ids'| ensures ids'[i] == if i < p then ids[i] else if i == p then id else ids[i - 1] {}
    forall i | 0 <= i < |ids| ensures ids[i] in ids && ids[i] != id {}
  }

  lemma FoundThread(s: St, th: Ref, p: nat, id: UvId, level: nat)
    requires th in s.heap && s.heap[th].Thread? && ThreadWF(s.upv, th, s.heap[th]) && Place(s.heap[th].openupval, s.upv, p, level)
    requires id !in s.upv && level < s.heap[th].top
    ensures ThreadWF(Found(s, th, p, id, level).upv, th, Found(s, th, p, id, level).heap[th])
  {
    InsertedMembers(s.heap[th].openupval, p, id);
    InsertedDescends(s.heap[th].openupval, s.upv, th, p, id, level);
  }

  lemma FoundWF(s: St, th: Ref, p: nat, id: UvId, level: nat)
    requires HeapWF(s.heap, s.upv) && th in s.heap && s.heap[th].Thread? && Place(s.heap[th].openupval, s.upv, p, level)
    requires id !in s.upv && level < s.heap[th].top
    ensures HeapWF(Found(s, th, p, id, level).heap, Found(s, th, p, id, level).upv)
  {
    var s', ids := Found(s, th, p, id, level), s.heap[th].openupval;
    assert ObjectWF(s.upv, th, s.heap[th]);
    FoundThread(s, th, p, id, level);
    InsertedMembers(ids, p, id);
    forall r | r in s'.heap ensures ObjectWF(s'.upv, r, s'.heap[r]) {
      assert ObjectWF(s.upv, r, s.heap[r]);
    }
    forall x | x in s'.upv ensures UvWF(s'.heap, x, s'.upv[x]) {
      if x != id { assert UvWF(s.heap, x, s.upv[x]); }
    }
  }

  lemma FoundStep(s: St, th: Ref, p: nat, id: UvId, level: nat)
    requires HeapWF(s.heap, s.upv) && NoDup(s.twups) && th in s.heap && th !in Gone(s) && s.heap[th].Thread?
    requires Place(s.heap[th].openupval, s.upv, p, level) && id !in s.upv && level < s.heap[th].top
    ensures UvStep(s, Found(s, th, p, id, level)) && BlacksStay(s, Found(s, th, p, id, level))
  {
    FoundWF(s, th, p, id, level);
    hide HeapWF;
  }

  lemma UvFacts(m: Mach)
    requires Inv(m)
    ensures HeapWF(m.st.heap, m.st.upv) && NoDup(m.st.twups)
  {}

  // Where in the list the upvalue of the slot is, or would be.
  method SearchUpval(ids: seq<UvId>, u: Upvals, level: nat) returns (p: nat, found: bool)
    requires (forall id :: id in ids ==> id in u && u[id].Open?) && Descending(u, ids)
    ensures found <==> exists i :: 0 <= i < |ids| && u[ids[i]].slot == level
    ensures if found then p < |ids| && u[ids[p]].slot == level else Place(ids, u, p, level)
  {
    p, found := 0, false;
    while p < |ids| && u[ids[p]].slot >= level
      invariant p <= |ids| && forall i :: 0 <= i < p ==> u[ids[i]].slot > level
    {
      if u[ids[p]].slot == level {
        return p, true;
      }
      p := p + 1;
    }
  }

  // The thread has the new upvalue 'uv' for the slot, in its place.
  ghost predicate Added(m: Mach, m': Mach, th: Ref, level: nat, uv: UvId) {
    && th in m.st.heap && m.st.heap[th].Thread?
    && exists p: nat :: Place(m.st.heap[th].openupval, m.st.upv, p, level) && m' == Step(m, Found(m.st, th, p, uv, level))
  }

  // A new open upvalue, linked at position p.
  method NewUpval(g: GlobalState, th: Ref, p: nat, level: nat, uv: UvId)
    requires Names(Snap(g), th) && g.heap[th].Thread? && level < g.heap[th].top && Place(g.heap[th].openupval, g.upv, p, level)
    requires uv !in g.upv && Inv(Snap(g))
    modifies g`heap, g`upv, g`twups
    ensures Added(old(Snap(g)), Snap(g), th, level, uv)
    ensures g.upv == old(g.upv)[uv := Open(th, level, true)] && SameBut(old(g.heap), g.heap)
    ensures Inv(Snap(g))
  {
    hide Inv, Place, Gone, Found;
    ghost var m := Snap(g);
    FoundInv(Snap(g), th, p, uv, level);
    PlaceIn(g.heap[th].openupval, g.upv, p, level);
    FoundSame(g.View(), th, p, uv, level);
    LinkUpval(g, th, p, level, uv);
    assert Snap(g) == Step(m, Found(m.st, th, p, uv, level));
    AddedAt(m, th, p, level, uv);
  }

  lemma AddedAt(m: Mach, th: Ref, p: nat, level: nat, uv: UvId)
    requires th in m.st.heap && m.st.heap[th].Thread? && Place(m.st.heap[th].openupval, m.st.upv, p, level)
    ensures p <= |m.st.heap[th].openupval| && Added(m, Step(m, Found(m.st, th, p, uv, level)), th, level, uv)
  {
    hide Found;
  }

  method LinkUpval(g: GlobalState, th: Ref, p: nat, level: nat, uv: UvId)
    requires th in g.heap && g.heap[th].Thread? && p <= |g.heap[th].openupval|
    modifies g`heap, g`upv, g`twups
    ensures g.View() == Found(old(g.View()), th, p, uv, level)
  {
    g.heap := g.heap[th := g.heap[th].(openupval := Inserted(g.heap[th].openupval, p, uv))];
    g.upv := g.upv[uv := Open(th, level, true)];
    if th !in g.twups {
      g.twups := [th] + g.twups;
    }
  }

  lemma FoundSame(s: St, th: Ref, p: nat, id: UvId, level: nat)
    requires th in s.heap && s.heap[th].Thread? && p <= |s.heap[th].openupval|
    ensures var s' := Found(s, th, p, id, level); s'.upv == s.upv[id := Open(th, level, true)] && SameBut(s.heap, s'.heap)
  {}

  lemma PlaceIn(ids: seq<UvId>, u: Upvals, p: nat, level: nat)
    requires Place(ids, u, p, level)
    ensures p <= |ids|
  {}

  lemma FoundInv(m: Mach, th: Ref, p: nat, id: UvId, level: nat)
    requires Inv(m) && Names(m, th) && m.st.heap[th].Thread? && level < m.st.heap[th].top
    requires Place(m.st.heap[th].openupval, m.st.upv, p, level) && id !in m.st.upv
    ensures p <= |m.st.heap[th].openupval| && Inv(Step(m, Found(m.st, th, p, id, level)))
  {
    UvFacts(m);
    PlaceIn(m.st.heap[th].openupval, m.st.upv, p, level);
    hide Inv, HeapWF, UvStep, BlacksStay, Place;
    FoundStep(m.st, th, p, id, level);
    UvInv(m, Found(m.st, th, p, id, level));
  }

  // A thread has at most one open upvalue for a stack slot.
  lemma {:induction false} SlotsDiffer(m: Mach, th: Ref, i: nat, j: nat)
    requires Inv(m) && Names(m, th) && m.st.heap[th].Thread? && i < j < |m.st.heap[th].openupval|
    ensures var ids := m.st.heap[th].openupval;
      ids[i] in m.st.upv && ids[j] in m.st.upv && m.st.upv[ids[i]].Open? && m.st.upv[ids[j]].Open? &&
      m.st.upv[ids[i]].slot > m.st.upv[ids[j]].slot
  {
    ThreadFacts(m, th);
    hide Inv;
    var ids := m.st.heap[th].openupval;
    assert ids[i] in ids && ids[j] in ids;
  }

  // The thread has an upvalue for the slot.
  ghost predicate HasUpval(h: Heap, u: Upvals, th: Ref, level: nat) {
    exists i :: 0 <= i < |OpenUpvals(h, th)| && OpenUpvals(h, th)[i] in u && u[OpenUpvals(h, th)[i]].Open? && u[OpenUpvals(h, th)[i]].slot == level
  }

  // The open upvalue of a stack slot: the one there is, or the new one uv.
  method FindUpval(g: GlobalState, th: Ref, level: nat, uv: UvId) returns (id: UvId)
    requires Names(Snap(g), th) && g.heap[th].Thread? && level < g.heap[th].top && uv !in g.upv && Inv(Snap(g))
    modifies g`heap, g`upv, g`twups
    ensures id in g.upv && g.upv[id].Open? && g.upv[id].thread == th && g.upv[id].slot == level
    ensures if HasUpval(old(g.heap), old(g.upv), th, level)
            then id in old(g.heap[th].openupval) && Snap(g) == old(Snap(g))
            else id == uv && g.upv == old(g.upv)[uv := Open(th, level, true)] && Added(old(Snap(g)), Snap(g), th, level, uv)
    ensures SameBut(old(g.heap), g.heap) && Inv(Snap(g))
  {
    hide Inv, Place, Added;
    ThreadFacts(Snap(g), th);
    var ids := g.heap[th].openupval;
    var p, found := SearchUpval(ids, g.upv, level);
    if found {
      assert OpenUpvals(g.heap, th)[p] in ids && OpenUpvals(g.heap, th)[p] == ids[p];
      assert HasUpval(g.heap, g.upv, th, level);
      return ids[p];
    }
    NewUpval(g, th, p, level, uv);
    id := uv;
  }

  // -------------------------------------------------------------------- assignments

  // luaC_upvalbarrier: the value of a closed upvalue must be marked, since it is not
  // known which closures are black.
  method UpvalBarrier(g: GlobalState, v: Value)
    requires Usable(g.View(), v) && Inv(Snap(g))
    modifies g`color, g`gray, g`loc
    ensures if KeepInvariant(g.gcstate) then !In(Whites(g.color), v) else Snap(g) == old(Snap(g))
    ensures Barred(old(Snap(g)), Snap(g), ValueRefs(v)) && Inv(Snap(g))
  {
    hide Inv, Barred;
    BarredReflexive(Snap(g));
    if v.Obj? && KeepInvariant(g.gcstate) && IsWhite(g.color, v.ref) {
      MarkForward(g, v.ref);
    }
  }

  ghost function Assigned(s: St, id: UvId, v: Value): St {
    s.(upv := s.upv[id := Closed(v)])
  }

  lemma AssignedWF(s: St, id: UvId, v: Value)
    requires HeapWF(s.heap, s.upv) && id in s.upv && s.upv[id].Closed?
    ensures HeapWF(Assigned(s, id, v).heap, Assigned(s, id, v).upv)
  {
    var s' := Assigned(s, id, v);
    forall r | r in s'.heap ensures ObjectWF(s'.upv, r, s'.heap[r]) {
      assert ObjectWF(s.upv, r, s.heap[r]);
    }
    forall x | x in s'.upv ensures UvWF(s'.heap, x, s'.upv[x]) {
      if x != id { assert UvWF(s.heap, x, s.upv[x]); }
    }
  }

  lemma AssignedStep(s: St, id: UvId, v: Value)
    requires HeapWF(s.heap, s.upv) && NoDup(s.twups) && id in s.upv && s.upv[id].Closed? && Usable(s, v)
    ensures UvStep(s, Assigned(s, id, v)) && (!In(Whites(s.color), v) ==> BlacksStay(s, Assigned(s, id, v)))
  {
    AssignedWF(s, id, v);
    hide HeapWF;
  }

  lemma AssignedInv(m: Mach, id: UvId, v: Value)
    requires Inv(m) && id in m.st.upv && m.st.upv[id].Closed? && Usable(m.st, v)
    requires KeepInvariant(m.phase) ==> !In(Whites(m.st.color), v)
    ensures Inv(Step(m, Assigned(m.st, id, v)))
  {
    UvFacts(m);
    hide Inv, HeapWF, UvStep, BlacksStay;
    AssignedStep(m.st, id, v);
    UvInv(m, Assigned(m.st, id, v));
  }

  // The stack slot has the value v.
  function InSlot(h: Heap, th: Ref, slot: nat, v: Value): Heap {
    if th in h && h[th].Thread? && slot < |h[th].stack| then h[th := h[th].(stack := h[th].stack[slot := v])] else h
  }

  lemma UpvalsAfter(m: Mach, m1: Mach, u: Upvals, more: set<Ref>)
    requires Barred(m, m1, more)
    ensures Becomes(m, Step(m1, m1.st.(upv := u)), m.st.heap, u, m.st.stuck, more)
  {
    hide MarksFor;
    assert Gone(m1.st.(upv := u)) == Gone(m1.st);
  }

  // Assignment to an upvalue: to the stack slot while it is open.
  method SetUpval(g: GlobalState, id: UvId, v: Value)
    requires id in g.upv && (g.upv[id].Open? ==> Names(Snap(g), g.upv[id].thread)) && Usable(g.View(), v) && Inv(Snap(g))
    modifies g`heap, g`upv, g`color, g`gray, g`loc
    ensures Becomes(old(Snap(g)), Snap(g), g.heap, g.upv, old(g.stuck), if old(g.upv[id]).Open? then {} else ValueRefs(v))
    ensures old(g.upv[id]).Closed? ==> g.heap == old(g.heap) && g.upv == old(g.upv)[id := Closed(v)]
    ensures old(g.upv[id]).Open? ==> g.upv == old(g.upv) && g.heap == InSlot(old(g.heap), old(g.upv[id]).thread, old(g.upv[id]).slot, v)
    ensures id in g.upv && UvValue(g.heap, g.upv, id) == v && Inv(Snap(g))
  {
    hide Inv, Barred, Becomes, HeapWF, Usable;
    if g.upv[id].Open? {
      ghost var m := Snap(g);
      BarredReflexive(m);
      OpenFacts(m, id);
      PutAfter(m, m, g.upv[id].thread, g.heap[g.upv[id].thread].(stack := g.heap[g.upv[id].thread].stack[g.upv[id].slot := v]), {});
      SetStack(g, g.upv[id].thread, g.upv[id].slot, v);
    } else {
      SetClosed(g, id, v);
    }
  }

  method SetClosed(g: GlobalState, id: UvId, v: Value)
    requires id in g.upv && g.upv[id].Closed? && Usable(g.View(), v) && Inv(Snap(g))
    modifies g`upv, g`color, g`gray, g`loc
    ensures Becomes(old(Snap(g)), Snap(g), g.heap, g.upv, old(g.stuck), ValueRefs(v)) && g.upv == old(g.upv)[id := Closed(v)]
    ensures Inv(Snap(g))
  {
    hide Inv, Barred, Becomes;
    ghost var m := Snap(g);
    UpvalBarrier(g, v);
    BarredNames(m, Snap(g), 0, ValueRefs(v));
    AssignedInv(Snap(g), id, v);
    UpvalsAfter(m, Snap(g), g.upv[id := Closed(v)], ValueRefs(v));
    g.upv := g.upv[id := Closed(v)];
  }

  lemma OpenFacts(m: Mach, id: UvId)
    requires Inv(m) && id in m.st.upv && m.st.upv[id].Open?
    ensures var th := m.st.upv[id].thread;
      th in m.st.heap && m.st.heap[th].Thread? && m.st.upv[id].slot < m.st.heap[th].top <= |m.st.heap[th].stack|
  {
    UvFacts(m);
    hide Inv;
    assert UvWF(m.st.heap, id, m.st.upv[id]);
    assert ObjectWF(m.st.upv, m.st.upv[id].thread, m.st.heap[m.st.upv[id].thread]);
  }

  // ---------------------------------------------------------------------- luaF_close

  ghost function ClosedFirst(s: St, th: Ref): St
    requires th in s.heap && s.heap[th].Thread? && s.heap[th].openupval != [] && s.heap[th].openupval[0] in s.upv
    requires s.upv[s.heap[th].openupval[0]].Open?
  {
    var id := s.heap[th].openupval[0];
    s.(heap := s.heap[th := s.heap[th].(openupval := s.heap[th].openupval[1..])],
       upv := s.upv[id := Closed(StackAt(s.heap, th, s.upv[id].slot))])
  }

  lemma ClosedObject(s: St, th: Ref, r: Ref)
    requires HeapWF(s.heap, s.upv) && th in s.heap && s.heap[th].Thread? && s.heap[th].openupval != [] && r in s.heap
    requires s.heap[th].openupval[0] in s.upv && s.upv[s.heap[th].openupval[0]].Open?
    ensures ObjectWF(ClosedFirst(s, th).upv, r, ClosedFirst(s, th).heap[r])
  {
    assert ObjectWF(s.upv, r, s.heap[r]) && ObjectWF(s.upv, th, s.heap[th]);
    hide HeapWF;
    var ids := s.heap[th].openupval;
    assert forall i :: 0 <= i < |ids| - 1 ==> ids[1..][i] == ids[i + 1];
  }

  lemma ClosedWF(s: St, th: Ref)
    requires HeapWF(s.heap, s.upv) && th in s.heap && s.heap[th].Thread? && s.heap[th].openupval != []
    requires s.heap[th].openupval[0] in s.upv && s.upv[s.heap[th].openupval[0]].Open?
    ensures HeapWF(ClosedFirst(s, th).heap, ClosedFirst(s, th).upv)
  {
    var s', ids := ClosedFirst(s, th), s.heap[th].openupval;
    forall r | r in s'.heap ensures ObjectWF(s'.upv, r, s'.heap[r]) {
      ClosedObject(s, th, r);
    }
    hide ObjectWF;
    forall x | x in s'.upv ensures UvWF(s'.heap, x, s'.upv[x]) {
      assert UvWF(s.heap, x, s.upv[x]);
      assert x in ids && x != ids[0] ==> x in ids[1..];
    }
  }

  lemma ClosedStep(s: St, th: Ref)
    requires HeapWF(s.heap, s.upv) && NoDup(s.twups) && th in s.heap && s.heap[th].Thread? && s.heap[th].openupval != []
    requires var id := s.heap[th].openupval[0]; id in s.upv && s.upv[id].Open? && s.upv[id].thread == th
    ensures UvStep(s, ClosedFirst(s, th))
    ensures !In(Whites(s.color), UvValue(s.heap, s.upv, s.heap[th].openupval[0])) ==> BlacksStay(s, ClosedFirst(s, th))
  {
    ClosedWF(s, th);
    ClosedValues(s, th);
    hide HeapWF;
  }

  // Closing an upvalue does not change what any upvalue denotes.
  lemma ClosedValues(s: St, th: Ref)
    requires th in s.heap && s.heap[th].Thread? && s.heap[th].openupval != []
    requires var id := s.heap[th].openupval[0]; id in s.upv && s.upv[id].Open? && s.upv[id].thread == th
    ensures forall id :: id in s.upv ==>
              UvValue(ClosedFirst(s, th).heap, ClosedFirst(s, th).upv, id) == UvValue(s.heap, s.upv, id)
  {}

  lemma ClosedSame(s: St, th: Ref)
    requires th in s.heap && s.heap[th].Thread? && s.heap[th].openupval != []
    requires var id := s.heap[th].openupval[0]; id in s.upv && s.upv[id].Open? && s.upv[id].thread == th
    ensures SameValues(s.heap, s.upv, ClosedFirst(s, th).heap, ClosedFirst(s, th).upv) && Gone(ClosedFirst(s, th)) == Gone(s)
  {
    ClosedValues(s, th);
    assert Gone(ClosedFirst(s, th)) == Gone(s);
  }

  lemma UvUsable(m: Mach, th: Ref, i: nat)
    requires Inv(m) && Names(m, th) && m.st.heap[th].Thread? && i < |m.st.heap[th].openupval|
    ensures var id := m.st.heap[th].openupval[i];
      id in m.st.upv && m.st.upv[id].Open? && m.st.upv[id].thread == th && Usable(m.st, UvValue(m.st.heap, m.st.upv, id))
  {
    ThreadFacts(m, th);
    AsIs(m, th);
    hide Inv;
    assert m.st.heap[th].openupval[i] in m.st.heap[th].openupval;
  }

  // Upvalues denote what they did, and only lists of open upvalues are different.
  ghost predicate SameValues(h: Heap, u: Upvals, h': Heap, u': Upvals) {
    && SameBut(h, h') && u'.Keys == u.Keys
    && forall id :: id in u ==> UvValue(h', u', id) == UvValue(h, u, id)
  }

  lemma SameValuesTransitive(h: Heap, u: Upvals, h': Heap, u': Upvals, h'': Heap, u'': Upvals)
    requires SameValues(h, u, h', u') && SameValues(h', u', h'', u'')
    ensures SameValues(h, u, h'', u'')
  {}

  // Every open upvalue of the thread is in a slot below the level.
  ghost predicate Below(h: Heap, u: Upvals, th: Ref, level: nat) {
    forall id :: id in OpenUpvals(h, th) ==> id in u && u[id].Open? && u[id].slot < level
  }

  // The list of open upvalues without its first n elements, and those closed.
  function Unlinked(h: Heap, th: Ref, n: nat): Heap
    requires n <= |OpenUpvals(h, th)|
  {
    if th in h && h[th].Thread? then h[th := h[th].(openupval := h[th].openupval[n..])] else h
  }

  function ClosedIds(h: Heap, u: Upvals, ids: seq<UvId>): Upvals {
    map id | id in u :: if id in ids then Closed(UvValue(h, u, id)) else u[id]
  }

  // The slots of the first n upvalues are not below the level, those of the others are.
  ghost predicate SplitAt(ids: seq<UvId>, u: Upvals, level: nat, n: nat) {
    && n <= |ids|
    && forall i :: 0 <= i < |ids| ==> ids[i] in u && u[ids[i]].Open? && (i < n <==> u[ids[i]].slot >= level)
  }

  // The first n upvalues of the thread have been closed, with the values they had.
  ghost predicate ClosedTo(m: Mach, m': Mach, th: Ref, n: nat) {
    && n <= |OpenUpvals(m.st.heap, th)|
    && var ids := OpenUpvals(m.st.heap, th)[..n];
      Becomes(m, m', Unlinked(m.st.heap, th, n), ClosedIds(m.st.heap, m.st.upv, ids), m.st.stuck, UpvalRefs(m.st.heap, m.st.upv, ids))
  }

  // What the upvalues refer to.
  function UpvalRefs(h: Heap, u: Upvals, ids: seq<UvId>): set<Ref> {
    set id | id in ids && UvValue(h, u, id).Obj? :: UvValue(h, u, id).ref
  }

  // Closes the upvalues of a thread from a stack level up. No value changes.
  method CloseUpvals(g: GlobalState, th: Ref, level: nat) returns (ghost n: nat)
    requires Names(Snap(g), th) && g.heap[th].Thread? && Inv(Snap(g))
    modifies g`heap, g`upv, g`color, g`gray, g`loc
    ensures SameValues(old(g.heap), old(g.upv), g.heap, g.upv) && Below(g.heap, g.upv, th, level)
    ensures SplitAt(old(g.heap[th].openupval), old(g.upv), level, n) && ClosedTo(old(Snap(g)), Snap(g), th, n)
    ensures Inv(Snap(g))
  {
    hide Inv, SameValues, Below, Gone, ClosedTo, SplitAt, ClosedIds, Becomes, ThreadWF, Unlinked;
    ghost var m := Snap(g);
    ghost var ids := g.heap[th].openupval;
    n := 0;
    ThreadFacts(m, th);
    CloseStart(m, th);
    while g.heap[th].openupval != []
      invariant Names(Snap(g), th) && g.heap[th].Thread? && SameValues(m.st.heap, m.st.upv, g.heap, g.upv) && Inv(Snap(g))
      invariant ClosedTo(m, Snap(g), th, n) && n <= |ids| && g.heap[th].openupval == ids[n..]
      invariant forall i :: 0 <= i < n ==> ids[i] in m.st.upv && m.st.upv[ids[i]].Open? && m.st.upv[ids[i]].slot >= level
      decreases |g.heap[th].openupval|
    {
      ghost var m1 := Snap(g);
      UvUsable(m1, th, 0);
      if g.upv[g.heap[th].openupval[0]].slot < level {
        SlotsBelow(m1, th, level);
        break;
      }
      CloseUpval(g, th);
      ClosedMore(m, m1, Snap(g), th, n);
      n := n + 1;
    }
    if g.heap[th].openupval == [] { NoneBelow(g.heap, g.upv, th, level); }
    ClosedSplit(m, Snap(g), th, level, n);
  }

  lemma ClosedNext(h: Heap, u: Upvals, ids: seq<UvId>, n: nat)
    requires n < |ids| && ids[n] in u
    ensures ClosedIds(h, u, ids[..n + 1]) == ClosedIds(h, u, ids[..n])[ids[n] := Closed(UvValue(h, u, ids[n]))]
  {
    assert ids[..n + 1] == ids[..n] + [ids[n]];
  }

  lemma CloseStart(m: Mach, th: Ref)
    ensures ClosedTo(m, m, th, 0) && SameValues(m.st.heap, m.st.upv, m.st.heap, m.st.upv)
  {
    SameValuesReflexive(m.st.heap, m.st.upv);
    BarredReflexive(m);
    hide Gone, Whites, SameValues;
    assert ClosedIds(m.st.heap, m.st.upv, []) == m.st.upv;
    assert Unlinked(m.st.heap, th, 0) == m.st.heap;
    assert OpenUpvals(m.st.heap, th)[..0] == [];
  }

  lemma BecomesTransitive(m: Mach, m1: Mach, m2: Mach, h: Heap, u: Upvals, more: set<Ref>, h': Heap, u': Upvals, more': set<Ref>)
    requires Becomes(m, m1, h, u, m.st.stuck, more) && Becomes(m1, m2, h', u', m1.st.stuck, more')
    requires forall b: set<Ref> :: UdataClosed(m.st.heap, b) ==> UdataClosed(h, b)
    ensures Becomes(m, m2, h', u', m.st.stuck, more + more')
  {
    hide Gone, Whites, UdataClosed;
  }

  lemma UnlinkedUdata(h: Heap, th: Ref, n: nat)
    requires n <= |OpenUpvals(h, th)|
    ensures forall b: set<Ref> :: UdataClosed(h, b) ==> UdataClosed(Unlinked(h, th, n), b)
  {}

  lemma OneMoreRef(h: Heap, u: Upvals, ids: seq<UvId>, n: nat)
    requires n < |ids|
    ensures UpvalRefs(h, u, ids[..n + 1]) == UpvalRefs(h, u, ids[..n]) + ValueRefs(UvValue(h, u, ids[n]))
  {
    assert ids[..n + 1] == ids[..n] + [ids[n]];
  }

  lemma UnlinkedNext(h: Heap, th: Ref, n: nat)
    requires n < |OpenUpvals(h, th)|
    ensures |OpenUpvals(Unlinked(h, th, n), th)| > 0 && Unlinked(Unlinked(h, th, n), th, 1) == Unlinked(h, th, n + 1)
    ensures OpenUpvals(Unlinked(h, th, n), th) == OpenUpvals(h, th)[n..] && OpenUpvals(h, th)[n..][1..] == OpenUpvals(h, th)[n + 1..]
  {}

  lemma ClosedMore(m: Mach, m1: Mach, m2: Mach, th: Ref, n: nat)
    requires ClosedTo(m, m1, th, n) && SameValues(m.st.heap, m.st.upv, m1.st.heap, m1.st.upv)
    requires n < |OpenUpvals(m.st.heap, th)| && |OpenUpvals(m1.st.heap, th)| > 0
    requires ThreadWF(m.st.upv, th, m.st.heap[th])
    requires SameValues(m1.st.heap, m1.st.upv, m2.st.heap, m2.st.upv)
    requires var id := OpenUpvals(m.st.heap, th)[n];
      Becomes(m1, m2, Unlinked(m1.st.heap, th, 1), m1.st.upv[id := Closed(UvValue(m1.st.heap, m1.st.upv, id))], m1.st.stuck,
              ValueRefs(UvValue(m1.st.heap, m1.st.upv, id)))
    ensures ClosedTo(m, m2, th, n + 1) && SameValues(m.st.heap, m.st.upv, m2.st.heap, m2.st.upv)
    ensures OpenUpvals(m2.st.heap, th) == OpenUpvals(m.st.heap, th)[n + 1..]
    ensures var id := OpenUpvals(m.st.heap, th)[n]; id in m.st.upv && m1.st.upv[id] == m.st.upv[id]
  {
    var ids, id := OpenUpvals(m.st.heap, th), OpenUpvals(m.st.heap, th)[n];
    assert id in ids && id !in ids[..n];
    SameValuesTransitive(m.st.heap, m.st.upv, m1.st.heap, m1.st.upv, m2.st.heap, m2.st.upv);
    UnlinkedNext(m.st.heap, th, n);
    ClosedNext(m.st.heap, m.st.upv, ids, n);
    assert UvValue(m1.st.heap, m1.st.upv, id) == UvValue(m.st.heap, m.st.upv, id);
    var h1, u1 := Unlinked(m.st.heap, th, n), ClosedIds(m.st.heap, m.st.upv, ids[..n]);
    var more, more' := UpvalRefs(m.st.heap, m.st.upv, ids[..n]), UpvalRefs(m.st.heap, m.st.upv, ids[..n + 1]);
    BecomesIs(m, m1, h1, u1, m.st.stuck, more);
    hide Gone, Whites, ThreadWF, SameValues, Becomes, ClosedIds, Unlinked, UpvalRefs;
    UnlinkedUdata(m.st.heap, th, n);
    OneMoreRef(m.st.heap, m.st.upv, ids, n);
    BecomesTransitive(m, m1, m2, h1, u1, more, Unlinked(m.st.heap, th, n + 1), ClosedIds(m.st.heap, m.st.upv, ids[..n + 1]),
                      ValueRefs(UvValue(m.st.heap, m.st.upv, id)));
    BecomesIs(m, m2, Unlinked(m.st.heap, th, n + 1), ClosedIds(m.st.heap, m.st.upv, ids[..n + 1]), m.st.stuck, more');
    UnlinkedIs(m.st.heap, th, n + 1);
  }

  lemma BecomesIs(m: Mach, m': Mach, h: Heap, u: Upvals, stuck: set<Ref>, more: set<Ref>)
    requires Becomes(m, m', h, u, stuck, more)
    ensures m'.st.heap == h && m'.st.upv == u
  {}

  lemma UnlinkedIs(h: Heap, th: Ref, n: nat)
    requires n <= |OpenUpvals(h, th)|
    ensures OpenUpvals(Unlinked(h, th, n), th) == OpenUpvals(h, th)[n..]
  {}

  // The upvalues that are left in the list are those below the level.
  lemma ClosedSplit(m: Mach, m': Mach, th: Ref, level: nat, n: nat)
    requires ClosedTo(m, m', th, n) && Below(m'.st.heap, m'.st.upv, th, level) && n <= |OpenUpvals(m.st.heap, th)|
    requires forall i :: 0 <= i < n ==>
               var id := OpenUpvals(m.st.heap, th)[i]; id in m.st.upv && m.st.upv[id].Open? && m.st.upv[id].slot >= level
    ensures SplitAt(OpenUpvals(m.st.heap, th), m.st.upv, level, n)
  {
    var ids := OpenUpvals(m.st.heap, th);
    BecomesIs(m, m', Unlinked(m.st.heap, th, n), ClosedIds(m.st.heap, m.st.upv, ids[..n]), m.st.stuck,
              UpvalRefs(m.st.heap, m.st.upv, ids[..n]));
    hide Becomes;
    UnlinkedIs(m.st.heap, th, n);
    forall i | n <= i < |ids| ensures ids[i] in m.st.upv && m.st.upv[ids[i]].Open? && m.st.upv[ids[i]].slot < level {
      assert ids[n..][i - n] in OpenUpvals(m'.st.heap, th);
    }
  }

  lemma SameValuesReflexive(h: Heap, u: Upvals)
    ensures SameValues(h, u, h, u)
  {}

  lemma NoneBelow(h: Heap, u: Upvals, th: Ref, level: nat)
    requires OpenUpvals(h, th) == []
    ensures Below(h, u, th, level)
  {}

  // The first open upvalue has the highest slot.
  lemma SlotsBelow(m: Mach, th: Ref, level: nat)
    requires Inv(m) && Names(m, th) && m.st.heap[th].Thread? && m.st.heap[th].openupval != []
    requires var id := m.st.heap[th].openupval[0]; id in m.st.upv && m.st.upv[id].Open? && m.st.upv[id].slot < level
    ensures Below(m.st.heap, m.st.upv, th, level)
  {
    hide Inv;
    ThreadFacts(m, th);
    var ids := m.st.heap[th].openupval;
    forall i | 0 <= i < |ids| ensures ids[i] in m.st.upv && m.st.upv[ids[i]].Open? && m.st.upv[ids[i]].slot < level {
      if i > 0 { SlotsDiffer(m, th, 0, i); }
    }
  }

  // Closes the first open upvalue of a thread.
  method CloseUpval(g: GlobalState, th: Ref)
    requires Names(Snap(g), th) && g.heap[th].Thread? && g.heap[th].openupval != [] && Inv(Snap(g))
    modifies g`heap, g`upv, g`color, g`gray, g`loc
    ensures g.heap == old(g.heap)[th := old(g.heap[th]).(openupval := old(g.heap[th]).openupval[1..])]
    ensures SameValues(old(g.heap), old(g.upv), g.heap, g.upv) && Gone(g.View()) == old(Gone(g.View()))
    ensures var id := old(g.heap[th].openupval[0]);
      Becomes(old(Snap(g)), Snap(g), Unlinked(old(g.heap), th, 1), old(g.upv)[id := Closed(UvValue(old(g.heap), old(g.upv), id))], old(g.stuck),
              ValueRefs(UvValue(old(g.heap), old(g.upv), id)))
    ensures Inv(Snap(g))
  {
    hide Inv, Barred, Becomes, HeapWF, Gone, SameValues, ClosedFirst;
    ghost var m := Snap(g);
    UvUsable(m, th, 0);
    var v := StackAt(g.heap, th, g.upv[g.heap[th].openupval[0]].slot);
    UpvalBarrier(g, v);
    BarredNames(m, Snap(g), th, ValueRefs(v));
    CloseInv(Snap(g), th);
    CloseAfter(m, Snap(g), th);
    UnlinkFirst(g, th);
  }

  lemma CloseAfter(m: Mach, m1: Mach, th: Ref)
    requires th in m.st.heap && m.st.heap[th].Thread? && m.st.heap[th].openupval != []
    requires var id := m.st.heap[th].openupval[0];
      && id in m.st.upv && m.st.upv[id].Open? && m.st.upv[id].thread == th
      && Barred(m, m1, ValueRefs(UvValue(m.st.heap, m.st.upv, id)))
    ensures m1.st.heap == m.st.heap && m1.st.upv == m.st.upv
    ensures var id := m.st.heap[th].openupval[0];
      Becomes(m, Step(m1, ClosedFirst(m1.st, th)), Unlinked(m.st.heap, th, 1),
              m.st.upv[id := Closed(UvValue(m.st.heap, m.st.upv, id))], m.st.stuck, ValueRefs(UvValue(m.st.heap, m.st.upv, id)))
  {
    hide Whites, MarksFor;
    assert Gone(ClosedFirst(m1.st, th)) == Gone(m1.st);
  }

  method UnlinkFirst(g: GlobalState, th: Ref)
    requires th in g.heap && g.heap[th].Thread? && g.heap[th].openupval != [] && g.heap[th].openupval[0] in g.upv
    requires g.upv[g.heap[th].openupval[0]].Open?
    modifies g`heap, g`upv
    ensures g.View() == ClosedFirst(old(g.View()), th)
    ensures g.heap == old(g.heap)[th := old(g.heap[th]).(openupval := old(g.heap[th]).openupval[1..])]
  {
    var id := g.heap[th].openupval[0];
    var v := StackAt(g.heap, th, g.upv[id].slot);
    g.heap := g.heap[th := g.heap[th].(openupval := g.heap[th].openupval[1..])];
    g.upv := g.upv[id := Closed(v)];
  }

  lemma CloseInv(m: Mach, th: Ref)
    requires Inv(m) && Names(m, th) && m.st.heap[th].Thread? && m.st.heap[th].openupval != []
    requires var id := m.st.heap[th].openupval[0];
      id in m.st.upv && m.st.upv[id].Open? && m.st.upv[id].thread == th &&
      (KeepInvariant(m.phase) ==> !In(Whites(m.st.color), UvValue(m.st.heap, m.st.upv, id)))
    ensures Inv(Step(m, ClosedFirst(m.st, th))) && Gone(ClosedFirst(m.st, th)) == Gone(m.st)
    ensures SameValues(m.st.heap, m.st.upv, ClosedFirst(m.st, th).heap, ClosedFirst(m.st, th).upv)
  {
    hide Inv, HeapWF, UvStep, BlacksStay, SameValues, Gone;
    UvFacts(m);
    ClosedStep(m.st, th);
    ClosedSame(m.st, th);
    UvInv(m, ClosedFirst(m.st, th));
  }

  // ---------------------------------------------------------- closures and upvalues

  ghost function WithClosed(s: St, id: UvId): St {
    s.(upv := s.upv[id := Closed(Nil)])
  }

  lemma WithClosedWF(s: St, id: UvId)
    requires HeapWF(s.heap, s.upv) && id !in s.upv
    ensures HeapWF(s.heap, WithClosed(s, id).upv)
  {
    var u' := WithClosed(s, id).upv;
    forall r | r in s.heap ensures ObjectWF(u', r, s.heap[r]) {
      assert ObjectWF(s.upv, r, s.heap[r]);
    }
    forall x | x in u' ensures UvWF(s.heap, x, u'[x]) {
      if x != id { assert UvWF(s.heap, x, s.upv[x]); }
    }
  }

  lemma WithClosedInv(m: Mach, id: UvId)
    requires Inv(m) && id !in m.st.upv
    ensures Inv(Step(m, WithClosed(m.st, id)))
  {
    UvFacts(m);
    WithClosedWF(m.st, id);
    hide Inv, HeapWF;
    assert UvStep(m.st, WithClosed(m.st, id)) && BlacksStay(m.st, WithClosed(m.st, id));
    UvInv(m, WithClosed(m.st, id));
  }

  // luaF_initupvals: a new closed upvalue, with nil.
  method InitUpvals(g: GlobalState, id: UvId)
    requires id !in g.upv && Inv(Snap(g))
    modifies g`upv
    ensures g.upv == old(g.upv)[id := Closed(Nil)] && Inv(Snap(g))
  {
    hide Inv;
    WithClosedInv(Snap(g), id);
    g.upv := g.upv[id := Closed(Nil)];
  }

  // pushclosure fills a closure that it has just made: it is white.
  method InitUpval(g: GlobalState, cl: Ref, i: nat, id: UvId)
    requires Names(Snap(g), cl) && g.heap[cl].LClosure? && i < |g.heap[cl].upvals| && IsWhite(g.color, cl)
    requires id in g.upv && Usable(g.View(), UvValue(g.heap, g.upv, id)) && Inv(Snap(g))
    modifies g`heap
    ensures g.heap == old(g.heap)[cl := old(g.heap[cl]).(upvals := old(g.heap[cl]).upvals[i := Some(id)])]
    ensures Inv(Snap(g))
  {
    hide Inv;
    UpvalPut(Snap(g), cl, i, id);
    g.heap := g.heap[cl := g.heap[cl].(upvals := g.heap[cl].upvals[i := Some(id)])];
  }

  lemma UpvalPut(m: Mach, cl: Ref, i: nat, id: UvId)
    requires Inv(m) && Names(m, cl) && m.st.heap[cl].LClosure? && i < |m.st.heap[cl].upvals|
    requires id in m.st.upv && Usable(m.st, UvValue(m.st.heap, m.st.upv, id))
    requires KeepInvariant(m.phase) && cl in m.st.color && m.st.color[cl].Black? ==>
               if m.st.upv[id].Open? then m.st.upv[id].touched else !In(Whites(m.st.color), UvValue(m.st.heap, m.st.upv, id))
    ensures Inv(Put(m, cl, m.st.heap[cl].(upvals := m.st.heap[cl].upvals[i := Some(id)])))
  {
    hide Inv;
    AsIs(m, cl);
    var o := m.st.heap[cl];
    assert Stored(m.st, cl, o) == m.st;
    UpvalStored(m.st, cl, i, id);
    if KeepInvariant(m.phase) { UpvalColor(m.st, cl, i, id); }
    hide WellStored, ColorOk;
    PutInv(m, cl, o.(upvals := o.upvals[i := Some(id)]));
  }

  lemma UpvalStored(s: St, cl: Ref, i: nat, id: UvId)
    requires cl in s.heap && s.heap[cl].LClosure? && i < |s.heap[cl].upvals| && WellStored(s, cl, s.heap[cl])
    requires Stored(s, cl, s.heap[cl]) == s && id in s.upv && Usable(s, UvValue(s.heap, s.upv, id))
    ensures WellStored(s, cl, s.heap[cl].(upvals := s.heap[cl].upvals[i := Some(id)]))
  {
    var o' := s.heap[cl].(upvals := s.heap[cl].upvals[i := Some(id)]);
    assert forall x :: UvValue(Stored(s, cl, o').heap, s.upv, x) == UvValue(s.heap, s.upv, x);
  }

  lemma UpvalColor(s: St, cl: Ref, i: nat, id: UvId)
    requires cl in s.heap && s.heap[cl].LClosure? && i < |s.heap[cl].upvals| && cl in s.color && cl in s.loc
    requires Stored(s, cl, s.heap[cl]) == s && ColorOk(s, cl, s.heap[cl]) && id in s.upv
    requires s.color[cl].Black? ==>
               if s.upv[id].Open? then s.upv[id].touched else !In(Whites(s.color), UvValue(s.heap, s.upv, id))
    ensures ColorOk(s, cl, s.heap[cl].(upvals := s.heap[cl].upvals[i := Some(id)]))
  {
    var o' := s.heap[cl].(upvals := s.heap[cl].upvals[i := Some(id)]);
    var h' := Stored(s, cl, o').heap;
    if s.color[cl].Black? && cl !in s.stuck {
      forall j | 0 <= j < |o'.upvals| && o'.upvals[j].Some?
        ensures UvBlack(h', s.upv, Whites(s.color), Flagged, s.loc, {}, o'.upvals[j].value)
      {
        assert j != i ==> UvBlack(s.heap, s.upv, Whites(s.color), Flagged, s.loc, {}, s.heap[cl].upvals[j].value);
      }
    }
  }

  ghost function Touched(s: St, id: UvId): St
    requires id in s.upv && s.upv[id].Open?
  {
    s.(upv := s.upv[id := s.upv[id].(touched := true)])
  }

  lemma TouchedStep(s: St, id: UvId)
    requires HeapWF(s.heap, s.upv) && NoDup(s.twups) && id in s.upv && s.upv[id].Open?
    ensures UvStep(s, Touched(s, id)) && BlacksStay(s, Touched(s, id))
  {
    hide HeapWF, Trim;
    var s' := Touched(s, id);
    TrimReflexive(s.heap);
    TrimWF(s.heap, s.upv, s'.heap, s'.upv);
  }

  lemma TouchedInv(m: Mach, id: UvId)
    requires Inv(m) && id in m.st.upv && m.st.upv[id].Open?
    ensures Inv(Step(m, Touched(m.st, id)))
  {
    UvFacts(m);
    hide Inv, UvStep, BlacksStay, HeapWF;
    TouchedStep(m.st, id);
    UvInv(m, Touched(m.st, id));
  }

  // An open upvalue that a closure gets is flagged.
  function Joined(u: Upvals, id: UvId): Upvals {
    if id in u && u[id].Open? then u[id := u[id].(touched := true)] else u
  }

  // What a closed upvalue refers to.
  function ClosedRefs(u: Upvals, id: UvId): set<Ref> {
    if id in u && u[id].Closed? then ValueRefs(u[id].v) else {}
  }

  lemma JoinAfter(m: Mach, m1: Mach, id: UvId, cl: Ref, o': Object, more: set<Ref>)
    requires (m1 == m || Barred(m, m1, more)) && cl in m.st.heap
    ensures Becomes(m, m1.(st := m1.st.(heap := m.st.heap[cl := o'], upv := Joined(m.st.upv, id))), m.st.heap[cl := o'], Joined(m.st.upv, id), m.st.stuck, more)
  {
    BarredReflexive(m);
    assert Barred(m, m1, more);
    hide Joined, Whites, MarksFor;
    assert Gone(m1.st.(heap := m.st.heap[cl := o'], upv := Joined(m.st.upv, id))) == Gone(m1.st);
  }

  // lua_upvaluejoin: a closure gets an upvalue of another.
  method JoinUpval(g: GlobalState, cl: Ref, i: nat, id: UvId)
    requires Names(Snap(g), cl) && g.heap[cl].LClosure? && i < |g.heap[cl].upvals|
    requires id in g.upv && Usable(g.View(), UvValue(g.heap, g.upv, id)) && Inv(Snap(g))
    modifies g`heap, g`upv, g`color, g`gray, g`loc
    ensures g.heap == old(g.heap)[cl := old(g.heap[cl]).(upvals := old(g.heap[cl]).upvals[i := Some(id)])]
    ensures Becomes(old(Snap(g)), Snap(g), g.heap, Joined(old(g.upv), id), old(g.stuck), ClosedRefs(old(g.upv), id))
    ensures Inv(Snap(g))
  {
    hide Inv, Barred, Becomes;
    ghost var m := Snap(g);
    if g.upv[id].Open? {
      TouchedInv(Snap(g), id);
      g.upv := g.upv[id := g.upv[id].(touched := true)];
      JoinAfter(m, m, id, cl, g.heap[cl].(upvals := g.heap[cl].upvals[i := Some(id)]), {});
    } else {
      UpvalBarrier(g, g.upv[id].v);
      BarredNames(m, Snap(g), cl, ValueRefs(g.upv[id].v));
      JoinAfter(m, Snap(g), id, cl, g.heap[cl].(upvals := g.heap[cl].upvals[i := Some(id)]), ValueRefs(m.st.upv[id].v));
    }
    UpvalPut(Snap(g), cl, i, id);
    g.heap := g.heap[cl := g.heap[cl].(upvals := g.heap[cl].upvals[i := Some(id)])];
  }

  // ... and sets its prototype.
  method InitProto(g: GlobalState, cl: Ref, p: Ref)
    requires Names(Snap(g), cl) && g.heap[cl].LClosure? && IsWhite(g.color, cl) && Usable(g.View(), Obj(p)) && Inv(Snap(g))
    modifies g`heap
    ensures g.heap == old(g.heap)[cl := old(g.heap[cl]).(proto := Some(p))]
    ensures Inv(Snap(g))
  {
    hide Inv;
    ProtoPut(Snap(g), cl, p);
    g.heap := g.heap[cl := g.heap[cl].(proto := Some(p))];
  }

  lemma ProtoPut(m: Mach, cl: Ref, p: Ref)
    requires Inv(m) && Names(m, cl) && m.st.heap[cl].LClosure? && IsWhite(m.st.color, cl) && Usable(m.st, Obj(p))
    ensures Inv(Put(m, cl, m.st.heap[cl].(proto := Some(p))))
  {
    hide Inv;
    AsIs(m, cl);
    var o' := m.st.heap[cl].(proto := Some(p));
    assert Stored(m.st, cl, m.st.heap[cl]) == m.st;
    assert forall x :: UvValue(Stored(m.st, cl, o').heap, m.st.upv, x) == UvValue(m.st.heap, m.st.upv, x);
    PutInv(m, cl, o');
  }
}
