// Sweeping: dead objects leave their list and are freed, the others turn white.

module GcSweep {
  import opened Common
  import opened GcHeap
  import opened GcState
  import opened GcMark
  import opened GcMachine

  // The list that is being swept.
  datatype Which = AllGc | FinObj | ToBeFnz

  function ListOf(w: Which, allgc: seq<Ref>, finobj: seq<Ref>, tobefnz: seq<Ref>): seq<Ref> {
    match w
    case AllGc => allgc
    case FinObj => finobj
    case ToBeFnz => tobefnz
  }

  ghost function TheList(m: Mach, w: Which): seq<Ref> {
    ListOf(w, m.allgc, m.finobj, m.tobefnz)
  }

  // The sweep of list w has come to position p; the lists before it are done.
  ghost predicate SweepInv(m: Mach, w: Which, p: nat) {
    && RootsLive(m) && Partition(m) && RestOk(m.st)
    && p <= |TheList(m, w)| && SweptTo(m.st, TheList(m, w), p)
    && (w != AllGc ==> SweptTo(m.st, m.allgc, |m.allgc|))
    && (w == ToBeFnz ==> SweptTo(m.st, m.finobj, |m.finobj|))
  }

  // Nothing that is alive is lost or changed, and what upvalues hold stays the same.
  ghost predicate Sweeping(m: Mach, m': Mach) {
    && Gone(m'.st) == Gone(m.st) && m'.st.white == m.st.white && m'.st.stuck <= m.st.stuck && m'.st.upv.Keys == m.st.upv.Keys
    && m'.st.fixed == m.st.fixed && m'.st.twups == m.st.twups && m'.st.heap.Keys <= m.st.heap.Keys
    && m'.mainthread == m.mainthread && m'.running == m.running && m'.registry == m.registry && m'.mt == m.mt
    && (forall r :: r in m'.st.heap ==> r in m.st.heap && m'.st.heap[r] == m.st.heap[r])
    && (forall id :: id in m.st.upv ==>
          id in m'.st.upv && UvValue(m'.st.heap, m'.st.upv, id) == UvValue(m.st.heap, m.st.upv, id))
  }

  lemma SweepingClear(m: Mach, m': Mach, r: Ref)
    requires HeapWF(m.st.heap, m.st.upv) && Sweeping(m, m')
    requires r in m.st.heap && r !in Gone(m.st)
    ensures r in m'.st.heap && m'.st.heap[r] == m.st.heap[r]
    ensures Clear(m'.st.heap, m'.st.upv, Gone(m'.st), m'.st.heap[r]) <==> Clear(m.st.heap, m.st.upv, Gone(m.st), m.st.heap[r])
  {
    assert r !in Gone(m'.st);
    assert ObjectWF(m.st.upv, r, m.st.heap[r]);
  }

  // Sweeping neither makes the heap sound nor breaks it.
  lemma SweepingSound(m: Mach, m': Mach)
    requires HeapWF(m.st.heap, m.st.upv) && Sweeping(m, m')
    ensures Sound(m'.st) <==> Sound(m.st)
  {
    forall r | r in m.st.heap && r !in Gone(m.st)
      ensures r in m'.st.heap && m'.st.heap[r] == m.st.heap[r]
      ensures Clear(m'.st.heap, m'.st.upv, Gone(m'.st), m'.st.heap[r]) <==> Clear(m.st.heap, m.st.upv, Gone(m.st), m.st.heap[r])
    {
      SweepingClear(m, m', r);
    }
    hide Clear;
  }

  lemma SweepingReflexive(m: Mach)
    ensures Sweeping(m, m)
  {}

  lemma SweepingTransitive(m: Mach, m': Mach, m'': Mach)
    requires Sweeping(m, m') && Sweeping(m', m'')
    ensures Sweeping(m, m'')
  {}

  // ---------------------------------------------------------------- freeing objects

  // The upvalues of a thread that is freed keep their values.
  function CloseAll(h: Heap, u: Upvals, th: Ref): Upvals {
    map id | id in u :: if u[id].Open? && u[id].thread == th then Closed(StackAt(h, th, u[id].slot)) else u[id]
  }

  function FreeObj(s: St, o: Ref): St {
    s.(heap := s.heap - {o}, color := s.color - {o}, loc := s.loc - {o}, bound := s.bound - {o},
       upv := CloseAll(s.heap, s.upv, o), stuck := s.stuck - {o})
  }

  lemma FreeValues(s: St, o: Ref, id: UvId)
    requires HeapWF(s.heap, s.upv) && id in s.upv
    ensures UvValue(FreeObj(s, o).heap, FreeObj(s, o).upv, id) == UvValue(s.heap, s.upv, id)
  {
    assert UvWF(s.heap, id, s.upv[id]);
  }

  lemma FreeWF(s: St, o: Ref)
    requires HeapWF(s.heap, s.upv)
    ensures HeapWF(FreeObj(s, o).heap, FreeObj(s, o).upv)
  {
    var s' := FreeObj(s, o);
    forall r | r in s'.heap ensures ObjectWF(s'.upv, r, s'.heap[r]) {
      assert ObjectWF(s.upv, r, s.heap[r]);
    }
    forall id | id in s'.upv ensures UvWF(s'.heap, id, s'.upv[id]) {
      assert UvWF(s.heap, id, s.upv[id]);
    }
  }

  ghost predicate Dead(s: St, o: Ref) {
    o in s.heap && o in s.color && s.color[o] == White(!s.white)
  }

  lemma FreeRest(s: St, o: Ref)
    requires RestOk(s) && Dead(s, o)
    ensures RestOk(FreeObj(s, o)) && Gone(FreeObj(s, o)) == Gone(s)
  {
    FreeWF(s, o);
    assert Gone(FreeObj(s, o)) == Gone(s);
    hide HeapWF;
  }

  function Whiten(s: St, o: Ref): St {
    s.(color := s.color[o := White(s.white)], stuck := s.stuck - {o})
  }

  lemma WhitenRest(s: St, o: Ref)
    requires RestOk(s) && o in s.heap && o !in Gone(s) && o !in s.fixed
    ensures RestOk(Whiten(s, o)) && Gone(Whiten(s, o)) == Gone(s)
  {
    var s' := Whiten(s, o);
    assert Gone(s') == Gone(s);
    hide HeapWF;
  }

  lemma WhitenSound(s: St, o: Ref)
    requires Sound(s) && Gone(Whiten(s, o)) == Gone(s)
    ensures Sound(Whiten(s, o))
  {
    hide Clear;
  }

  // ------------------------------------------------------------- one object of a list

  function Without(l: seq<Ref>, p: nat): seq<Ref>
    requires p < |l|
  {
    l[..p] + l[p + 1..]
  }

  ghost function FreeAt(m: Mach, p: nat): Mach
    requires p < |m.allgc|
  {
    m.(allgc := Without(m.allgc, p), st := FreeObj(m.st, m.allgc[p]))
  }

  ghost function WhitenAt(m: Mach, w: Which, p: nat): Mach
    requires p < |TheList(m, w)|
  {
    m.(st := Whiten(m.st, TheList(m, w)[p]))
  }

  lemma WithoutMultiset(l: seq<Ref>, p: nat)
    requires p < |l|
    ensures multiset(Without(l, p)) + multiset{l[p]} == multiset(l)
  {
    assert l == l[..p] + [l[p]] + l[p + 1..];
  }

  // An object of a list is in the heap and in no other list.
  lemma Unique(m: Mach, w: Which, p: nat)
    requires Partition(m) && p < |TheList(m, w)|
    ensures var o := TheList(m, w)[p];
      && o in m.st.heap && o !in m.st.fixed && o != m.mainthread && o !in Without(TheList(m, w), p)
      && (w != AllGc ==> o !in m.allgc) && (w != FinObj ==> o !in m.finobj) && (w != ToBeFnz ==> o !in m.tobefnz)
  {
    var l, o := TheList(m, w), TheList(m, w)[p];
    WithoutMultiset(l, p);
    assert multiset(l)[o] >= 1;
    var all := multiset(m.allgc) + multiset(m.finobj) + multiset(m.tobefnz) + multiset(m.st.fixed) + multiset{m.mainthread};
    assert all[o] == multiset(m.st.heap.Keys)[o] <= 1;
    assert multiset(Without(l, p))[o] == multiset(l)[o] - 1;
  }

  // Objects with finalizers have been marked: only 'allgc' has dead ones.
  lemma DeadInAllGc(m: Mach, w: Which, p: nat)
    requires RootsLive(m) && p < |TheList(m, w)| && Dead(m.st, TheList(m, w)[p])
    ensures w == AllGc
  {
    assert TheList(m, w)[p] in Gone(m.st);
  }

  lemma KeysDrop(h: Heap, o: Ref)
    requires o in h
    ensures multiset((h - {o}).Keys) + multiset{o} == multiset(h.Keys)
  {
    assert (h - {o}).Keys == h.Keys - {o};
    assert h.Keys == (h.Keys - {o}) + {o};
  }

  lemma FreePartition(m: Mach, p: nat)
    requires Partition(m) && p < |m.allgc|
    ensures Partition(FreeAt(m, p))
  {
    WithoutMultiset(m.allgc, p);
    Unique(m, AllGc, p);
    KeysDrop(m.st.heap, m.allgc[p]);
    var o, others := m.allgc[p], multiset(m.finobj) + multiset(m.tobefnz) + multiset(m.st.fixed) + multiset{m.mainthread};
    assert multiset(m.allgc) + others == multiset(m.st.heap.Keys);
    Cancel(multiset(Without(m.allgc, p)) + others, multiset((m.st.heap - {o}).Keys), multiset{o});
  }

  lemma Cancel(a: multiset<Ref>, b: multiset<Ref>, c: multiset<Ref>)
    requires a + c == b + c
    ensures a == b
  {
    forall x: Ref ensures a[x] == b[x] {
      assert (a + c)[x] == (b + c)[x];
    }
  }

  lemma FreeSwept(m: Mach, p: nat)
    requires SweepInv(m, AllGc, p) && p < |m.allgc| && Dead(m.st, m.allgc[p])
    ensures SweptTo(FreeAt(m, p).st, FreeAt(m, p).allgc, p)
  {
    Unique(m, AllGc, p);
    hide RestOk, RootsLive, Partition;
  }

  lemma FreeRoots(m: Mach, p: nat)
    requires RootsLive(m) && p < |m.allgc| && Dead(m.st, m.allgc[p])
    requires Gone(FreeAt(m, p).st) == Gone(m.st)
    ensures RootsLive(FreeAt(m, p))
  {
    assert m.allgc[p] in Gone(m.st);
  }

  lemma FreeSweeping(m: Mach, p: nat)
    requires RootsLive(m) && HeapWF(m.st.heap, m.st.upv) && p < |m.allgc| && Dead(m.st, m.allgc[p])
    requires Gone(FreeAt(m, p).st) == Gone(m.st)
    ensures Sweeping(m, FreeAt(m, p))
  {
    hide RootsLive, HeapWF, CloseAll, UvValue;
    var o := m.allgc[p];
    forall id | id in m.st.upv
      ensures id in FreeObj(m.st, o).upv && UvValue(FreeObj(m.st, o).heap, FreeObj(m.st, o).upv, id) == UvValue(m.st.heap, m.st.upv, id)
    {
      FreeKeys(m.st, o);
      FreeValues(m.st, o, id);
    }
    FreeKeys(m.st, o);
  }

  lemma FreeKeys(s: St, o: Ref)
    ensures FreeObj(s, o).upv.Keys == s.upv.Keys
  {}

  lemma FreeAtInv(m: Mach, p: nat)
    requires SweepInv(m, AllGc, p) && p < |m.allgc| && Dead(m.st, m.allgc[p])
    ensures SweepInv(FreeAt(m, p), AllGc, p) && Sweeping(m, FreeAt(m, p))
  {
    hide RestOk, RootsLive, Partition, SweptTo, FreeObj, HeapWF;
    FreeRest(m.st, m.allgc[p]);
    FreeRoots(m, p);
    FreeSwept(m, p);
    FreePartition(m, p);
    SweepFacts(m, AllGc, p);
    FreeSweeping(m, p);
  }

  lemma WhitenAtInv(m: Mach, w: Which, p: nat)
    requires SweepInv(m, w, p) && p < |TheList(m, w)| && !Dead(m.st, TheList(m, w)[p])
    ensures SweepInv(WhitenAt(m, w, p), w, p + 1) && Sweeping(m, WhitenAt(m, w, p))
  {
    var o := TheList(m, w)[p];
    Unique(m, w, p);
    assert o !in Gone(m.st);
    WhitenRest(m.st, o);
    hide RestOk, Partition;
  }

  // -------------------------------------------------------------------- the methods

  // luaF_close on the stack of a thread that is being freed.
  method CloseThread(g: GlobalState, th: Ref)
    requires th in g.heap && g.heap[th].Thread? && HeapWF(g.heap, g.upv)
    modifies g`heap, g`upv
    ensures g.upv == CloseAll(old(g.heap), old(g.upv), th)
    ensures g.heap == old(g.heap)[th := old(g.heap)[th].(openupval := [])]
  {
    ghost var h0, u0 := g.heap, g.upv;
    ghost var ids := g.heap[th].openupval;
    ghost var i := 0;
    assert ObjectWF(u0, th, h0[th]);
    while g.heap[th].openupval != []
      invariant i <= |ids| && th in g.heap && g.heap[th].Thread? && g.heap == h0[th := h0[th].(openupval := ids[i..])]
      invariant g.upv.Keys == u0.Keys
      invariant forall id :: id in u0 ==>
                  g.upv[id] == if id in ids[..i] then Closed(StackAt(h0, th, u0[id].slot)) else u0[id]
      decreases |g.heap[th].openupval|
    {
      var id := g.heap[th].openupval[0];
      assert id == ids[i] && id in ids;
      assert ids[..i + 1] == ids[..i] + [id];
      g.heap := g.heap[th := g.heap[th].(openupval := g.heap[th].openupval[1..])];
      g.upv := g.upv[id := Closed(StackAt(g.heap, th, g.upv[id].slot))];
      i := i + 1;
    }
    assert ids[..i] == ids;
    forall id | id in u0 ensures g.upv[id] == CloseAll(h0, u0, th)[id] {
      assert UvWF(h0, id, u0[id]);
    }
  }

  lemma CloseNothing(h: Heap, u: Upvals, o: Ref)
    requires HeapWF(h, u) && o in h && !h[o].Thread?
    ensures CloseAll(h, u, o) == u
  {
    forall id | id in u ensures CloseAll(h, u, o)[id] == u[id] {
      assert UvWF(h, id, u[id]);
    }
  }

  method FreeObject(g: GlobalState, o: Ref)
    requires o in g.heap && HeapWF(g.heap, g.upv)
    modifies g`heap, g`upv, g`color, g`loc, g`bound, g`stuck
    ensures g.View() == FreeObj(old(g.View()), o)
  {
    hide HeapWF, CloseAll;
    ghost var h0, u0 := g.heap, g.upv;
    if g.heap[o].Thread? {
      CloseThread(g, o);
    } else {
      CloseNothing(h0, u0, o);
    }
    assert g.heap - {o} == h0 - {o};
    Unlink(g, o);
  }

  // The object's memory is released.
  method Unlink(g: GlobalState, o: Ref)
    modifies g`heap, g`color, g`loc, g`bound, g`stuck
    ensures g.View() == old(g.View()).(heap := old(g.heap) - {o}, color := old(g.color) - {o},
                                       loc := old(g.loc) - {o}, bound := old(g.bound) - {o}, stuck := old(g.stuck) - {o})
  {
    g.heap := g.heap - {o};
    g.color := g.color - {o};
    g.loc := g.loc - {o};
    g.bound := g.bound - {o};
    g.stuck := g.stuck - {o};
  }

  method SetList(g: GlobalState, w: Which, l: seq<Ref>)
    modifies g`allgc, g`finobj, g`tobefnz
    ensures ListOf(w, g.allgc, g.finobj, g.tobefnz) == l
    ensures w != AllGc ==> g.allgc == old(g.allgc)
    ensures w != FinObj ==> g.finobj == old(g.finobj)
    ensures w != ToBeFnz ==> g.tobefnz == old(g.tobefnz)
  {
    match w
    case AllGc => g.allgc := l;
    case FinObj => g.finobj := l;
    case ToBeFnz => g.tobefnz := l;
  }

  lemma SweepFacts(m: Mach, w: Which, p: nat)
    requires SweepInv(m, w, p)
    ensures p <= |TheList(m, w)| && HeapWF(m.st.heap, m.st.upv) && RootsLive(m)
    ensures m.st.color.Keys == m.st.heap.Keys && m.st.bound == m.st.heap.Keys
    ensures p < |TheList(m, w)| ==> TheList(m, w)[p] in m.st.heap
  {
    if p < |TheList(m, w)| { Unique(m, w, p); }
  }

  // Sweeping from position p on leaves what is before.
  ghost predicate SamePrefix(l: seq<Ref>, l': seq<Ref>, p: nat) {
    p <= |l| && p <= |l'| && l'[..p] == l[..p]
  }

  lemma PrefixTransitive(l: seq<Ref>, l': seq<Ref>, l'': seq<Ref>, p: nat, q: nat)
    requires SamePrefix(l, l', p) && SamePrefix(l', l'', q) && p <= q
    ensures SamePrefix(l, l'', p)
  {
    assert l''[..p] == l''[..q][..p] == l'[..q][..p];
  }

  lemma PrefixReflexive(l: seq<Ref>, p: nat)
    requires p <= |l|
    ensures SamePrefix(l, l, p)
  {}

  // Only objects of 'l' have another colour; some objects may be gone.
  ghost predicate KeepsColors(c: Colors, c': Colors, l: seq<Ref>) {
    forall r :: r in c' && r !in l ==> r in c && c'[r] == c[r]
  }

  ghost predicate Sublist(l: seq<Ref>, l': seq<Ref>) {
    forall r :: r in l' ==> r in l
  }

  lemma FreeLists(m: Mach, p: nat)
    requires p < |m.allgc|
    ensures SweptLists(m, FreeAt(m, p), AllGc, p, p, 1)
  {
    assert Without(m.allgc, p)[..p] == m.allgc[..p];
  }

  method FreeNext(g: GlobalState, w: Which, p: nat)
    requires p < |TheList(Snap(g), w)| && Dead(g.View(), TheList(Snap(g), w)[p]) && SweepInv(Snap(g), w, p)
    modifies g`heap, g`upv, g`color, g`loc, g`bound, g`stuck, g`allgc, g`finobj, g`tobefnz
    ensures SweptLists(old(Snap(g)), Snap(g), w, p, p, 1)
    ensures Sweeping(old(Snap(g)), Snap(g)) && SweepInv(Snap(g), w, p)
  {
    hide SweepInv, Sweeping, RootsLive, HeapWF, FreeObj, Dead, SweptLists;
    ghost var m := Snap(g);
    SweepFacts(m, w, p);
    DeadInAllGc(m, w, p);
    FreeAtInv(m, p);
    FreeLists(m, p);
    var l := ListOf(w, g.allgc, g.finobj, g.tobefnz);
    SetList(g, w, Without(l, p));
    FreeObject(g, l[p]);
    assert Snap(g) == FreeAt(m, p);
  }

  // What the sweep of n objects of the list w, from position p to q, does to the lists and
  // colours: nothing leaves a list, except 'allgc'.
  ghost predicate SweptLists(m: Mach, m': Mach, w: Which, p: nat, q: nat, n: nat) {
    && p <= q <= p + n && q <= |TheList(m', w)| && |TheList(m', w)| - q == |TheList(m, w)| - p - n
    && m'.finobj == m.finobj && m'.tobefnz == m.tobefnz
    && (if w == AllGc then SamePrefix(m.allgc, m'.allgc, p) && Sublist(m.allgc, m'.allgc) && KeepsColors(m.st.color, m'.st.color, m.allgc)
        else m'.allgc == m.allgc && q == p + n && KeepsColors(m.st.color, m'.st.color, TheList(m, w)[p..q]))
  }

  lemma SweptNothing(m: Mach, w: Which, p: nat)
    requires p <= |TheList(m, w)|
    ensures SweptLists(m, m, w, p, p, 0)
  {}

  lemma SweptMore(m0: Mach, m: Mach, m': Mach, w: Which, p: nat, q: nat, q': nat, n: nat)
    requires SweptLists(m0, m, w, p, q, n) && SweptLists(m, m', w, q, q', 1)
    ensures SweptLists(m0, m', w, p, q', n + 1)
  {
    if w == AllGc {
      PrefixTransitive(m0.allgc, m.allgc, m'.allgc, p, q);
    } else {
      assert TheList(m0, w)[p..q'] == TheList(m0, w)[p..q] + TheList(m0, w)[q..q'];
    }
  }

  lemma SweptRest(m0: Mach, m: Mach, w: Which, p: nat, q: nat, n: nat)
    requires SweptLists(m0, m, w, p, q, n)
    ensures q <= |TheList(m, w)| && |TheList(m, w)| - q == |TheList(m0, w)| - p - n
  {}

  // The first object not swept yet: freed if dead, else made white.
  method SweepOne(g: GlobalState, w: Which, p: nat) returns (p': nat)
    requires p < |TheList(Snap(g), w)| && SweepInv(Snap(g), w, p)
    modifies g`heap, g`upv, g`color, g`loc, g`bound, g`stuck, g`allgc, g`finobj, g`tobefnz
    ensures SweptSome(old(Snap(g)), Snap(g), w, p, p', 1)
  {
    hide SweepInv, Sweeping, RootsLive, HeapWF, SweptLists;
    ghost var m := Snap(g);
    SweepFacts(m, w, p);
    var curr := ListOf(w, g.allgc, g.finobj, g.tobefnz)[p];
    if g.color[curr] == White(!g.currentwhite) {
      FreeNext(g, w, p);
      p' := p;
    } else {
      WhitenAtInv(m, w, p);
      WhitenLists(m, w, p);
      WhitenObject(g, curr);
      p' := p + 1;
    }
  }

  method WhitenObject(g: GlobalState, o: Ref)
    modifies g`color, g`stuck
    ensures g.View() == Whiten(old(g.View()), o)
  {
    g.color := g.color[o := White(g.currentwhite)];
    g.stuck := g.stuck - {o};
  }

  lemma WhitenLists(m: Mach, w: Which, p: nat)
    requires p < |TheList(m, w)|
    ensures SweptLists(m, WhitenAt(m, w, p), w, p, p + 1, 1)
  {
    PrefixReflexive(TheList(m, w), p);
    assert TheList(m, w)[p] in TheList(m, w)[p..p + 1];
  }

  // The sweep of n objects, from position p to q.
  ghost predicate SweptSome(m: Mach, m': Mach, w: Which, p: nat, q: nat, n: nat) {
    SweptLists(m, m', w, p, q, n) && Sweeping(m, m') && SweepInv(m', w, q)
  }

  lemma SweptNone(m: Mach, w: Which, p: nat)
    requires SweepInv(m, w, p)
    ensures SweptSome(m, m, w, p, p, 0) && p <= |TheList(m, w)|
  {
    hide SweepInv, SweptLists, Sweeping;
    SweepingReflexive(m);
    SweepFacts(m, w, p);
    SweptNothing(m, w, p);
  }

  lemma SweptOne(m0: Mach, m: Mach, m': Mach, w: Which, p: nat, q: nat, q': nat, n: nat)
    requires SweptSome(m0, m, w, p, q, n) && SweptSome(m, m', w, q, q', 1)
    ensures SweptSome(m0, m', w, p, q', n + 1)
    ensures q' <= |TheList(m', w)| && |TheList(m', w)| - q' == |TheList(m0, w)| - p - n - 1
  {
    hide SweepInv, SweptLists, Sweeping;
    SweptMore(m0, m, m', w, p, q, q', n);
    SweptRest(m0, m', w, p, q', n + 1);
    SweepingTransitive(m0, m, m');
  }

  lemma SweptFrom(m0: Mach, m: Mach, w: Which, p: nat, q: nat, n: nat)
    requires SweptSome(m0, m, w, p, q, n)
    ensures SweepInv(m, w, q)
  {}

  // Sweeps at most 'count' objects from position p on; returns where to continue, or
  // None at the end of the list.
  method SweepList(g: GlobalState, w: Which, p: nat, count: nat) returns (next: Option<nat>)
    requires SweepInv(Snap(g), w, p)
    modifies g`heap, g`upv, g`color, g`loc, g`bound, g`stuck, g`allgc, g`finobj, g`tobefnz
    ensures var n := |TheList(old(Snap(g)), w)| - p;
      && SweptSome(old(Snap(g)), Snap(g), w, p, Pos(next, TheList(Snap(g), w)), if count < n then count else n)
      && (next.Some? <==> count < n) && (next.Some? ==> next.value < |TheList(Snap(g), w)|)
  {
    hide SweepInv, SweptSome, ListOf;
    ghost var m0 := Snap(g);
    SweptNone(m0, w, p);
    var q, n := p, 0;
    while n < count && q < |ListOf(w, g.allgc, g.finobj, g.tobefnz)|
      invariant 0 <= n <= count && 0 <= q && SweptSome(m0, Snap(g), w, p, q, n)
      invariant q <= |TheList(Snap(g), w)| && |TheList(Snap(g), w)| - q == |TheList(m0, w)| - p - n
      decreases count - n
    {
      ghost var m := Snap(g);
      ghost var q0 := q;
      SweptFrom(m0, m, w, p, q, n);
      q := SweepOne(g, w, q);
      SweptOne(m0, m, Snap(g), w, p, q0, q, n);
      n := n + 1;
    }
    next := if q == |ListOf(w, g.allgc, g.finobj, g.tobefnz)| then None else Some(q);
  }

  // Sweeps up to and including the next object that is not dead.
  method SweepToLive(g: GlobalState, p: nat) returns (next: Option<nat>)
    requires SweepInv(Snap(g), AllGc, p)
    modifies g`heap, g`upv, g`color, g`loc, g`bound, g`stuck, g`allgc, g`finobj, g`tobefnz
    ensures (next.Some? ==> next.value == p + 1) && SamePrefix(old(g.allgc), g.allgc, p) && g.finobj == old(g.finobj) && g.tobefnz == old(g.tobefnz)
    ensures Sublist(old(g.allgc), g.allgc) && KeepsColors(old(g.color), g.color, old(g.allgc))
    ensures p <= |old(g.allgc)| && Pos(next, g.allgc) <= |g.allgc| && |g.allgc| - Pos(next, g.allgc) <= |old(g.allgc)| - p
    ensures Sweeping(old(Snap(g)), Snap(g))
    ensures SweepInv(Snap(g), AllGc, Pos(next, g.allgc))
  {
    hide SweepInv, Sweeping, SamePrefix, KeepsColors, Sublist;
    ghost var m0 := Snap(g);
    next := SweepList(g, AllGc, p, 1);
    while next == Some(p)
      invariant next.Some? ==> p <= next.value <= p + 1 && next.value < |g.allgc|
      invariant SamePrefix(m0.allgc, g.allgc, p) && g.finobj == m0.finobj && g.tobefnz == m0.tobefnz
      invariant Sublist(m0.allgc, g.allgc) && KeepsColors(m0.st.color, g.color, m0.allgc)
      invariant |g.allgc| - Pos(next, g.allgc) <= |m0.allgc| - p
      invariant Sweeping(m0, Snap(g)) && SweepInv(Snap(g), AllGc, Pos(next, g.allgc))
      decreases next == Some(p), |g.allgc|
    {
      ghost var m := Snap(g);
      next := SweepList(g, AllGc, p, 1);
      PrefixTransitive(m0.allgc, m.allgc, g.allgc, p, p);
      KeepsTransitive(m0.st.color, m.st.color, g.color, m0.allgc, m.allgc, g.allgc);
      SweepingTransitive(m0, m, Snap(g));
    }
  }

  lemma KeepsTransitive(c: Colors, c': Colors, c'': Colors, l: seq<Ref>, l': seq<Ref>, l'': seq<Ref>)
    requires Sublist(l, l') && KeepsColors(c, c', l) && Sublist(l', l'') && KeepsColors(c', c'', l')
    ensures Sublist(l, l'') && KeepsColors(c, c'', l)
  {}
}
