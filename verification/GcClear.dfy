// Clearing weak tables: clearkeys and clearvalues.

module GcClear {
  import opened GcHeap
  import opened GcInvariants
  import opened GcState
  import opened GcSteps
  import opened GcMark

  // The strings that clearing may mark are within the bound: the keys of live entries, and
  // the values of the array part and of entries.
  ghost predicate KeyStrs(h: Heap, b: set<Ref>, t: Ref) {
    forall i :: 0 <= i < |Nodes(h, t)| && !Nodes(h, t)[i].val.Nil? ==> StrInB(h, b, Nodes(h, t)[i].key)
  }

  ghost predicate ValStrs(h: Heap, b: set<Ref>, t: Ref) {
    && (forall i :: 0 <= i < |ArrayOf(h, t)| ==> StrInB(h, b, ArrayOf(h, t)[i]))
    && forall i :: 0 <= i < |Nodes(h, t)| ==> StrInB(h, b, Nodes(h, t)[i].val)
  }

  ghost predicate AllKeyStrs(h: Heap, b: set<Ref>, l: seq<Ref>) {
    forall t :: t in l ==> KeyStrs(h, b, t)
  }

  ghost predicate AllValStrs(h: Heap, b: set<Ref>, l: seq<Ref>) {
    forall t :: t in l ==> ValStrs(h, b, t)
  }

  lemma TrimStrings(h: Heap, h': Heap)
    requires Trim(h, h')
    ensures forall v: Value :: IsStr(h', v) <==> IsStr(h, v)
  {
    assert forall r :: r in h ==> ObjTrim(h[r], h'[r]);
  }

  lemma StrsTrim(h: Heap, h': Heap, b: set<Ref>, b': set<Ref>, t: Ref)
    requires Trim(h, h') && b <= b'
    ensures KeyStrs(h, b, t) ==> KeyStrs(h', b', t)
    ensures ValStrs(h, b, t) ==> ValStrs(h', b', t)
  {
    TrimStrings(h, h');
    TableTrim(h, h', t);
    hide Trim, IsStr, Nodes, ArrayOf;
    var ns, ns' := Nodes(h, t), Nodes(h', t);
    assert forall i :: 0 <= i < |ns| ==> NodeTrim(ns[i], ns'[i]);
  }

  lemma TableTrim(h: Heap, h': Heap, t: Ref)
    requires Trim(h, h')
    ensures ErasedTo(ArrayOf(h, t), ArrayOf(h', t)) && NodesTrim(Nodes(h, t), Nodes(h', t))
  {
    if t in h { assert ObjTrim(h[t], h'[t]); }
  }

  lemma AllStrsTrim(h: Heap, h': Heap, b: set<Ref>, b': set<Ref>, l: seq<Ref>)
    requires Trim(h, h') && b <= b'
    ensures AllKeyStrs(h, b, l) ==> AllKeyStrs(h', b', l)
    ensures AllValStrs(h, b, l) ==> AllValStrs(h', b', l)
  {
    hide Trim, KeyStrs, ValStrs;
    forall t ensures (KeyStrs(h, b, t) ==> KeyStrs(h', b', t)) && (ValStrs(h, b, t) ==> ValStrs(h', b', t)) {
      StrsTrim(h, h', b, b', t);
    }
  }

  lemma AllStrsCleared(s: St, s': St, l: seq<Ref>)
    requires Clearing(s, s')
    ensures AllKeyStrs(s.heap, s.bound, l) ==> AllKeyStrs(s'.heap, s'.bound, l)
    ensures AllValStrs(s.heap, s.bound, l) ==> AllValStrs(s'.heap, s'.bound, l)
  {
    hide AllKeyStrs, AllValStrs;
    AllStrsTrim(s.heap, s'.heap, s.bound, s'.bound, l);
  }

  lemma StrsTable(s: St, s': St, t: Ref, n: nat)
    requires ClearingTable(s, s', t, n)
    ensures KeyStrs(s.heap, s.bound, t) ==> KeyStrs(s'.heap, s'.bound, t)
    ensures ValStrs(s.heap, s.bound, t) ==> ValStrs(s'.heap, s'.bound, t)
  {
    hide KeyStrs, ValStrs, Traversing;
    StrsCleared(s, s', t);
  }

  lemma StrsCleared(s: St, s': St, t: Ref)
    requires Clearing(s, s')
    ensures KeyStrs(s.heap, s.bound, t) ==> KeyStrs(s'.heap, s'.bound, t)
    ensures ValStrs(s.heap, s.bound, t) ==> ValStrs(s'.heap, s'.bound, t)
  {
    hide KeyStrs, ValStrs;
    StrsTrim(s.heap, s'.heap, s.bound, s'.bound, t);
  }

  function Elements(p: seq<Ref>): set<Ref> {
    set r | r in p
  }

  // Entries have only been lost for an unmarked key, or for an unmarked value.
  ghost predicate EntriesLost(h: Heap, W: iset<Ref>, ns: seq<Node>, ns': seq<Node>, keys: bool) {
    |ns'| == |ns| && forall i :: 0 <= i < |ns| ==> ns'[i].val == ns[i].val || ValueLost(h, W, if keys then ns[i].key else ns[i].val)
  }

  // Only tables of 'l' have changed.
  ghost predicate ChangedIn(h: Heap, h': Heap, W: iset<Ref>, l: set<Ref>, keys: bool) {
    forall r :: r in h && r in h' ==> if r in l then EntriesLost(h, W, Nodes(h, r), Nodes(h', r), keys) else h'[r] == h[r]
  }

  lemma ChangedStart(h: Heap, W: iset<Ref>, l: set<Ref>, keys: bool)
    ensures ChangedIn(h, h, W, l, keys)
  {}

  lemma ChangedTransitive(h: Heap, h': Heap, h'': Heap, W: iset<Ref>, W': iset<Ref>, l: set<Ref>, l': set<Ref>, keys: bool)
    requires Trim(h, h') && W' <= W && ChangedIn(h, h', W, l, keys) && ChangedIn(h', h'', W', l', keys)
    ensures ChangedIn(h, h'', W, l + l', keys)
  {
    TrimStrings(h, h');
    hide IsStr;
    forall r | r in h && r in h'' ensures if r in l + l' then EntriesLost(h, W, Nodes(h, r), Nodes(h'', r), keys) else h''[r] == h[r] {
      assert r in h';
      TableTrim(h, h', r);
    }
  }

  // Clearing erases weak entries and marks strings; it changes nothing else.
  ghost predicate Clearing(s: St, s': St) {
    && s' == s.(heap := s'.heap, color := s'.color, bound := s'.bound) && s.bound <= s'.bound
    && Trim(s.heap, s'.heap) && Marks(s.color, s'.color)
    && OnlyStrings(s.heap, Whites(s.color), Whites(s'.color))
    && s.clearing && LosesOnly(s.heap, s'.heap, Whites(s.color))
    && Emptied(s.heap, s'.heap, Whites(s'.color))
  }

  lemma ClearingReflexive(s: St)
    requires s.clearing
    ensures Clearing(s, s)
  {
    TrimReflexive(s.heap);
  }

  lemma ClearingTransitive(s: St, s': St, s'': St)
    requires Clearing(s, s') && Clearing(s', s'')
    ensures Clearing(s, s'')
  {
    TrimStrings(s.heap, s'.heap);
    hide LosesOnly, Emptied;
    TrimTransitive(s.heap, s'.heap, s''.heap);
    LosesTransitive(s.heap, s'.heap, s''.heap, Whites(s.color), Whites(s'.color));
    EmptiedTransitive(s.heap, s'.heap, s''.heap, Whites(s'.color), Whites(s''.color));
    hide Trim, IsStr;
  }

  lemma ClearingProgress(s: St, s': St)
    requires Clearing(s, s') && s'.bound == s.bound
    ensures Progress(s, s')
  {}

  // While a table is being cleared.
  ghost predicate ClearingTable(s0: St, s: St, h: Ref, n: nat) {
    Traversing(s0, s, h, n) && Clearing(s0, s)
  }

  lemma ClearStart(s: St, h: Ref)
    requires h in s.heap && s.heap[h].Table? && h in s.color && s.color[h].Gray?
    requires s.clearing && MarkInv(s, {})
    ensures ClearingTable(s, s, h, 0)
  {
    hide MarkInv, Traversing, Trim, LosesOnly;
    MarkedBound(s, {}, h);
    SkipMore(s, {}, h);
    assert {} + {h} == {h};
    TraversingStart(s, h);
    ClearingReflexive(s);
  }

  lemma GrayBefore(s: St, h: Ref)
    requires MarkInv(s, {}) && h in s.heap && h in s.color && s.color[h].Gray?
    ensures h in s.loc && (h in s.stuck || GrayOk(Whites(s.color), s.inside, s.fixed, s.loc[h], h, s.heap[h]))
  {}

  // A table that is being cleared is as much in order as it was.
  lemma GrayStays(s0: St, s: St, h: Ref)
    requires h in s0.heap && s0.heap[h].Table? && h in s0.color && s0.color[h].Gray?
    requires MarkInv(s0, {}) && Clearing(s0, s)
    ensures h in s.heap && s.heap[h].Table? && h in s.color && s.color[h].Gray? && h in s.loc
    ensures h in s.stuck || GrayOk(Whites(s.color), s.inside, s.fixed, s.loc[h], h, s.heap[h])
  {
    GrayBefore(s0, h);
    hide MarkInv;
    assert ObjTrim(s0.heap[h], s.heap[h]) && EmptiedOk(Whites(s.color), s0.heap[h].nodes, s.heap[h].nodes);
    if GrayDone(Whites(s0.color), s0.loc[h], s0.heap[h]) {
      GrayDoneMono(Whites(s0.color), Whites(s.color), s0.loc[h], s0.heap[h]);
      GrayDoneErased(Whites(s.color), s0.loc[h], s0.heap[h], s.heap[h]);
    }
  }

  lemma ClearStop(s0: St, s: St, h: Ref, n: nat)
    requires h in s0.heap && s0.heap[h].Table? && h in s0.color && s0.color[h].Gray?
    requires MarkInv(s0, {}) && ClearingTable(s0, s, h, n)
    ensures MarkInv(s, {}) && Clearing(s0, s)
  {
    hide MarkInv, Traversing, Clearing;
    TraversingStop(s0, s, h, n);
    GrayStays(s0, s, h);
    assert {} + {h} == {h};
    FinishInv(s, {}, h);
  }

  // The entry n is erased, its key forgotten if it is not marked.
  lemma ClearErase(s0: St, s: St, h: Ref, n: nat, node: Node)
    requires n < |Nodes(s.heap, h)| && h in s.heap && s.heap[h].Table?
    requires node.val == Nodes(s.heap, h)[n].val || EntryLost(s.heap, Whites(s.color), Nodes(s.heap, h)[n])
    requires !Nodes(s.heap, h)[n].val.Nil? && KeyClear(Whites(s.color), node)
    requires NodeTrim(Nodes(s.heap, h)[n], node) && ClearingTable(s0, s, h, n)
    ensures ClearingTable(s0, s.(heap := s.heap[h := s.heap[h].(nodes := s.heap[h].nodes[n := node])]), h, n + 1)
  {
    hide MarkInv, Traversing;
    Walking(s0, s, h, n);
    TraversingErase(s0, s, h, n, node);
    var s' := s.(heap := s.heap[h := s.heap[h].(nodes := s.heap[h].nodes[n := node])]);
    Walking(s0, s', h, n + 1);
    TraversingStop(s0, s', h, n + 1);
  }

  lemma ClearKeep(s0: St, s: St, s': St, h: Ref, n: nat)
    requires ClearingTable(s0, s, h, n) && Traversing(s0, s', h, n)
    requires s' == s.(color := s'.color) && OnlyStrings(s.heap, Whites(s.color), Whites(s'.color)) && Marks(s.color, s'.color)
    ensures ClearingTable(s0, s', h, n) && ClearingTable(s0, s', h, n + 1)
  {
    hide MarkInv, Traversing;
    TraversingNext(s0, s', h, n);
    assert forall r :: r in s0.heap ==> ObjTrim(s0.heap[r], s.heap[r]);
    hide Trim;
  }

  lemma ClearArrayStop(s0: St, s: St, h: Ref, arr: seq<Value>)
    requires h in s0.heap && s0.heap[h].Table? && h in s0.color && s0.color[h].Gray? && h in s.heap && s.heap[h].Table?
    requires ErasedTo(s.heap[h].arr, arr) && ArrayLoses(s.heap, Whites(s.color), s.heap[h].arr, arr)
    requires MarkInv(s0, {}) && ClearingTable(s0, s, h, 0)
    ensures var s' := s.(heap := s.heap[h := s.heap[h].(arr := arr)]);
      MarkInv(s', {}) && Clearing(s0, s')
  {
    hide MarkInv, Traversing, Clearing;
    var t' := s.heap[h].(arr := arr);
    var s' := s.(heap := s.heap[h := t']);
    TraversingStop(s0, s, h, 0);
    ArrayTrim(s.heap[h], arr);
    WhitesLosable(s0, s);
    TrimAt(s, h, t');
    ClearingArray(s0, s, h, arr);
    ClearingTransitive(s0, s, s');
    GrayStays(s0, s', h);
    assert {} + {h} == {h};
    FinishInv(s', {}, h);
  }

  lemma WhitesLosable(s0: St, s: St)
    requires Clearing(s0, s)
    ensures Losable(s) == Whites(s.color)
  {}

  lemma ArrayTrim(t: Object, arr: seq<Value>)
    requires t.Table? && ErasedTo(t.arr, arr)
    ensures ObjTrim(t, t.(arr := arr))
  {}

  lemma ClearingArray(s0: St, s: St, h: Ref, arr: seq<Value>)
    requires h in s.heap && s.heap[h].Table? && Clearing(s0, s)
    requires ErasedTo(s.heap[h].arr, arr) && ArrayLoses(s.heap, Whites(s.color), s.heap[h].arr, arr)
    ensures Clearing(s, s.(heap := s.heap[h := s.heap[h].(arr := arr)]))
  {
    ArrayTrim(s.heap[h], arr);
    hide ObjTrim;
    TrimReflexive(s.heap);
    assert Trim(s.heap, s.heap[h := s.heap[h].(arr := arr)]);
  }

  ghost predicate ArrayLoses(h: Heap, W: iset<Ref>, arr: seq<Value>, arr': seq<Value>) {
    |arr'| == |arr| && forall i :: 0 <= i < |arr| ==> arr'[i] == arr[i] || ValueLost(h, W, arr[i])
  }

  lemma ArrayLosesStep(h: Heap, W: iset<Ref>, W': iset<Ref>, arr: seq<Value>, arr': seq<Value>, i: nat, c: bool)
    requires ArrayLoses(h, W, arr, arr') && OnlyStrings(h, W, W') && i < |arr|
    requires c ==> In(W', arr[i]) && !IsStr(h, arr[i])
    ensures ArrayLoses(h, W', arr, if c then arr'[i := Nil] else arr')
  {}

  lemma ArrayExists(s0: St, s: St, h: Ref, i: nat)
    requires ClearingTable(s0, s, h, 0) && h in s.heap && s.heap[h].Table? && i < |s.heap[h].arr|
    ensures !In(Missing(s.heap), s.heap[h].arr[i]) && Traversing(s0, s, h, 0)
  {
    ChildExists(s, {h}, h);
    hide MarkInv;
  }

  lemma ArrayStr(s: St, h: Ref, i: nat)
    requires ValStrs(s.heap, s.bound, h) && i < |ArrayOf(s.heap, h)|
    ensures StrInB(s.heap, s.bound, ArrayOf(s.heap, h)[i])
  {}

  // The first i elements of the array part have been dealt with.
  ghost predicate ArrayDone(h: Heap, W: iset<Ref>, arr: seq<Value>, arr': seq<Value>, i: nat) {
    && i <= |arr| && ErasedTo(arr, arr') && ArrayLoses(h, W, arr, arr')
    && NoneIn(W, arr'[..i]) && forall j :: i <= j < |arr| ==> arr'[j] == arr[j]
  }

  lemma ArrayDoneStart(h: Heap, W: iset<Ref>, arr: seq<Value>)
    ensures ArrayDone(h, W, arr, arr, 0)
  {}

  lemma ArrayDoneStop(h: Heap, W: iset<Ref>, arr: seq<Value>, arr': seq<Value>)
    requires ArrayDone(h, W, arr, arr', |arr|)
    ensures ErasedTo(arr, arr') && ArrayLoses(h, W, arr, arr') && NoneIn(W, arr')
  {
    assert arr'[..|arr|] == arr';
  }

  lemma ArrayDoneStep(h: Heap, W: iset<Ref>, W': iset<Ref>, arr: seq<Value>, arr': seq<Value>, i: nat, c: bool)
    requires ArrayDone(h, W, arr, arr', i) && OnlyStrings(h, W, W') && i < |arr|
    requires (c <==> In(W', arr[i])) && (c ==> !IsStr(h, arr[i]))
    ensures ArrayDone(h, W', arr, if c then arr'[i := Nil] else arr', i + 1)
  {
    var arr'' := if c then arr'[i := Nil] else arr';
    ArrayLosesStep(h, W, W', arr, arr', i, c);
    NoneInMono(W, W', arr'[..i]);
    assert arr''[..i + 1] == arr'[..i] + [arr''[i]];
  }

  // The values of the array part that are cleared; strings are marked instead.
  method ClearArray(g: GlobalState, h: Ref)
    requires h in g.heap && g.heap[h].Table? && h in g.color && g.color[h].Gray? && ValStrs(g.heap, g.bound, h) && g.clearing
    requires MarkInv(g.View(), {})
    modifies g`heap, g`color, g`gray, g`loc
    ensures h in g.heap && g.heap[h].Table? && NoneIn(Whites(g.color), g.heap[h].arr)
    ensures ChangedIn(old(g.heap), g.heap, old(Whites(g.color)), {h}, false)
    ensures MarkInv(g.View(), {}) && Clearing(old(g.View()), g.View())
  {
    hide MarkInv, Traversing, Clearing, ClearingTable, ValStrs, ArrayLoses, ArrayDone, ValueLost, OnlyStrings;
    ghost var s0 := g.View();
    ClearStart(s0, h);
    var arr := g.heap[h].arr;
    var cleared := arr;
    ArrayDoneStart(g.heap, Whites(g.color), arr);
    for i := 0 to |arr|
      modifies g`color, g`gray, g`loc
      invariant h in g.heap && g.heap == s0.heap && g.bound == s0.bound && |cleared| == |arr|
      invariant ArrayDone(g.heap, Whites(g.color), arr, cleared, i)
      invariant ClearingTable(s0, g.View(), h, 0)
    {
      ghost var s := g.View();
      ArrayExists(s0, s, h, i);
      ArrayStr(s0, h, i);
      var c := g.IsCleared(arr[i], h, s0, 0);
      ClearSame(s0, s, g.View(), h, 0);
      ArrayDoneStep(g.heap, Whites(s.color), Whites(g.color), arr, cleared, i, c);
      if c {
        cleared := cleared[i := Nil];
      }
    }
    ArrayDoneStop(g.heap, Whites(g.color), arr, cleared);
    ClearArrayStop(s0, g.View(), h, cleared);
    g.heap := g.heap[h := g.heap[h].(arr := cleared)];
  }

  lemma ClearSame(s0: St, s: St, s': St, h: Ref, n: nat)
    requires ClearingTable(s0, s, h, n) && Traversing(s0, s', h, n)
    requires s' == s.(color := s'.color) && OnlyStrings(s.heap, Whites(s.color), Whites(s'.color)) && Marks(s.color, s'.color)
    ensures ClearingTable(s0, s', h, n)
  {
    hide MarkInv, Traversing;
    ClearKeep(s0, s, s', h, n);
  }

  // Entries with a value have marked keys.
  ghost predicate LiveKeys(W: iset<Ref>, ns: seq<Node>) {
    forall i :: 0 <= i < |ns| ==> ns[i].val.Nil? || !In(W, ns[i].key)
  }

  ghost predicate LiveKeysTo(W: iset<Ref>, ns: seq<Node>, n: nat) {
    forall i :: 0 <= i < |ns| && i < n ==> ns[i].val.Nil? || !In(W, ns[i].key)
  }

  lemma LiveKeysStep(W: iset<Ref>, ns: seq<Node>, W': iset<Ref>, ns': seq<Node>, n: nat)
    requires LiveKeysTo(W, ns, n) && W' <= W && n < |ns'| == |ns|
    requires (forall i :: 0 <= i < n ==> ns'[i] == ns[i]) && (ns'[n].val.Nil? || !In(W', ns'[n].key))
    ensures LiveKeysTo(W', ns', n + 1)
  {}

  lemma LiveKeysStart(W: iset<Ref>, ns: seq<Node>)
    ensures LiveKeysTo(W, ns, 0)
  {}

  lemma LiveKeysStop(W: iset<Ref>, ns: seq<Node>)
    requires LiveKeysTo(W, ns, |ns|)
    ensures LiveKeys(W, ns)
  {}

  // An entry with an unmarked key is removed.
  method ClearKeyEntry(g: GlobalState, h: Ref, i: nat, ghost s0: St)
    requires i < |Nodes(g.heap, h)| && LiveKeysTo(Whites(g.color), Nodes(g.heap, h), i) && KeyStrs(g.heap, g.bound, h) && g.clearing
    requires ClearingTable(s0, g.View(), h, i) && ChangedIn(s0.heap, g.heap, Whites(s0.color), {h}, true)
    modifies g`heap, g`color, g`gray, g`loc
    ensures |Nodes(g.heap, h)| == |Nodes(old(g.heap), h)| && g.clearing
    ensures LiveKeysTo(Whites(g.color), Nodes(g.heap, h), i + 1)
    ensures ClearingTable(s0, g.View(), h, i + 1) && ChangedIn(s0.heap, g.heap, Whites(s0.color), {h}, true)
  {
    hide MarkInv, Traversing, Clearing, LiveKeysTo, LosesOnly, ChangedIn, IsStr;
    ghost var s := g.View();
    Walking(s0, s, h, i);
    EntryExists(s0, s, h, i, i);
    var n := g.heap[h].nodes[i];
    var c := false;
    if !n.val.Nil? {
      c := g.IsCleared(n.key, h, s0, i);
      ClearSame(s0, s, g.View(), h, i);
    }
    if c {
      // removeentry: the key is white, hence dead
      ChangedErase(s0, g.View(), h, i, n.(val := Nil, dead := true), true);
      n := n.(val := Nil, dead := true);
      ClearErase(s0, g.View(), h, i, n);
      g.heap := g.heap[h := g.heap[h].(nodes := g.heap[h].nodes[i := n])];
    } else {
      ClearNext(s0, g.View(), h, i);
    }
    LiveKeysStep(Whites(s.color), Nodes(s.heap, h), Whites(g.color), Nodes(g.heap, h), i);
  }

  lemma ClearNext(s0: St, s: St, h: Ref, n: nat)
    requires ClearingTable(s0, s, h, n)
    ensures ClearingTable(s0, s, h, n + 1)
  {
    hide Traversing;
    TraversingNext(s0, s, h, n);
  }

  method ClearKeysTable(g: GlobalState, h: Ref)
    requires h in g.heap && g.heap[h].Table? && h in g.color && g.color[h].Gray? && KeyStrs(g.heap, g.bound, h) && g.clearing
    requires MarkInv(g.View(), {})
    modifies g`heap, g`color, g`gray, g`loc
    ensures LiveKeys(Whites(g.color), Nodes(g.heap, h)) && ChangedIn(old(g.heap), g.heap, old(Whites(g.color)), {h}, true)
    ensures MarkInv(g.View(), {}) && Clearing(old(g.View()), g.View())
  {
    hide MarkInv, ClearingTable, Clearing, LiveKeysTo, KeyStrs, ChangedIn;
    ghost var s0 := g.View();
    ClearStart(s0, h);
    LiveKeysStart(Whites(g.color), Nodes(g.heap, h));
    ChangedStart(g.heap, Whites(g.color), {h}, true);
    ghost var n := |Nodes(g.heap, h)|;
    for i := 0 to |g.heap[h].nodes|
      invariant |Nodes(g.heap, h)| == n && LiveKeysTo(Whites(g.color), Nodes(g.heap, h), i) && g.clearing
      invariant ClearingTable(s0, g.View(), h, i) && ChangedIn(s0.heap, g.heap, Whites(s0.color), {h}, true)
    {
      StrsTable(s0, g.View(), h, i);
      ClearKeyEntry(g, h, i, s0);
    }
    LiveKeysStop(Whites(g.color), Nodes(g.heap, h));
    ClearStop(s0, g.View(), h, n);
  }

  // An entry with an unmarked value is removed.
  method ClearValueEntry(g: GlobalState, h: Ref, i: nat, ghost s0: St)
    requires i < |Nodes(g.heap, h)| && ValsClearTo(Whites(g.color), Nodes(g.heap, h), i) && ValStrs(g.heap, g.bound, h) && g.clearing
    requires ClearingTable(s0, g.View(), h, i) && ChangedIn(s0.heap, g.heap, Whites(s0.color), {h}, false)
    modifies g`heap, g`color, g`gray, g`loc
    ensures |Nodes(g.heap, h)| == |Nodes(old(g.heap), h)| && g.clearing
    ensures ValsClearTo(Whites(g.color), Nodes(g.heap, h), i + 1)
    ensures ClearingTable(s0, g.View(), h, i + 1) && ChangedIn(s0.heap, g.heap, Whites(s0.color), {h}, false)
  {
    hide MarkInv, Traversing, Clearing, ValsClearTo, ChangedIn, IsStr;
    ghost var s := g.View();
    Walking(s0, s, h, i);
    EntryExists(s0, s, h, i, i);
    var n := g.heap[h].nodes[i];
    var c := false;
    if !n.val.Nil? {
      c := g.IsCleared(n.val, h, s0, i);
      ClearSame(s0, s, g.View(), h, i);
    }
    if c {
      ChangedErase(s0, g.View(), h, i, n.(val := Nil, dead := n.dead || !IsMarked(g.color, n.key)), false);
      n := n.(val := Nil, dead := n.dead || !IsMarked(g.color, n.key));
      ClearErase(s0, g.View(), h, i, n);
      g.heap := g.heap[h := g.heap[h].(nodes := g.heap[h].nodes[i := n])];
    } else {
      ClearNext(s0, g.View(), h, i);
    }
    ValsClearStep(Whites(s.color), Nodes(s.heap, h), Whites(g.color), Nodes(g.heap, h), i);
  }

  lemma ChangedErase(s0: St, s: St, h: Ref, i: nat, n: Node, keys: bool)
    requires ClearingTable(s0, s, h, i) && ChangedIn(s0.heap, s.heap, Whites(s0.color), {h}, keys) && i < |Nodes(s.heap, h)|
    requires var v := if keys then Nodes(s.heap, h)[i].key else Nodes(s.heap, h)[i].val; In(Whites(s.color), v) && !IsStr(s.heap, v)
    ensures h in s.heap && s.heap[h].Table?
    ensures ChangedIn(s0.heap, s.heap[h := s.heap[h].(nodes := s.heap[h].nodes[i := n])], Whites(s0.color), {h}, keys)
  {
    hide ClearingTable, IsStr, ChangedIn;
    ClearingWalk(s0, s, h, i);
    TrimStrings(s0.heap, s.heap);
    ChangedNode(s0.heap, s.heap, Whites(s0.color), h, i, n, keys);
  }

  lemma ClearingWalk(s0: St, s: St, h: Ref, i: nat)
    requires ClearingTable(s0, s, h, i)
    ensures Trim(s0.heap, s.heap) && Whites(s.color) <= Whites(s0.color)
    ensures h in s.heap && s.heap[h].Table? && h in s0.heap && |Nodes(s.heap, h)| == |Nodes(s0.heap, h)|
    ensures i < |Nodes(s.heap, h)| ==> Nodes(s.heap, h)[i] == Nodes(s0.heap, h)[i]
  {
    hide Traversing;
    Walking(s0, s, h, i);
  }

  lemma ChangedNode(h: Heap, h': Heap, W: iset<Ref>, t: Ref, i: nat, n: Node, keys: bool)
    requires ChangedIn(h, h', W, {t}, keys) && t in h' && h'[t].Table? && t in h && i < |Nodes(h', t)| == |Nodes(h, t)|
    requires ValueLost(h, W, if keys then Nodes(h, t)[i].key else Nodes(h, t)[i].val)
    ensures ChangedIn(h, h'[t := h'[t].(nodes := h'[t].nodes[i := n])], W, {t}, keys)
  {
    hide ValueLost;
  }

  method ClearValuesTable(g: GlobalState, h: Ref)
    requires h in g.heap && g.heap[h].Table? && h in g.color && g.color[h].Gray? && ValStrs(g.heap, g.bound, h) && g.clearing
    requires MarkInv(g.View(), {})
    modifies g`heap, g`color, g`gray, g`loc
    ensures ValuesCleared(g.View(), h) && g.clearing
    ensures ChangedIn(old(g.heap), g.heap, old(Whites(g.color)), {h}, false)
    ensures MarkInv(g.View(), {}) && Clearing(old(g.View()), g.View())
  {
    hide MarkInv, ClearingTable, Clearing, ValsClearTo, ValStrs, ChangedIn;
    ClearArray(g, h);
    ghost var s0 := g.View();
    ClearFacts(old(g.View()), s0, h);
    StrsCleared(old(g.View()), s0, h);
    ClearStart(s0, h);
    ClearToStart(Whites(g.color), Nodes(g.heap, h));
    ChangedStart(g.heap, Whites(g.color), {h}, false);
    ghost var n := |Nodes(g.heap, h)|;
    for i := 0 to |g.heap[h].nodes|
      invariant |Nodes(g.heap, h)| == n && ValsClearTo(Whites(g.color), Nodes(g.heap, h), i) && g.clearing
      invariant ClearingTable(s0, g.View(), h, i) && ChangedIn(s0.heap, g.heap, Whites(s0.color), {h}, false)
    {
      StrsTable(s0, g.View(), h, i);
      ClearValueEntry(g, h, i, s0);
    }
    ClearToStop(Whites(g.color), Nodes(g.heap, h));
    ClearStop(s0, g.View(), h, n);
    ArrayStaysClear(s0, g.View(), h);
    ClearingTransitive(old(g.View()), s0, g.View());
    ClearingTrim(old(g.View()), s0);
    ChangedTransitive(old(g.heap), s0.heap, g.heap, old(Whites(g.color)), Whites(s0.color), {h}, {h}, false);
    assert {h} + {h} == {h};
  }

  lemma ClearingTrim(s: St, s': St)
    requires Clearing(s, s')
    ensures Trim(s.heap, s'.heap) && Whites(s'.color) <= Whites(s.color)
  {}

  ghost predicate ValuesCleared(s: St, h: Ref) {
    h in s.heap && s.heap[h].Table? ==> NoneIn(Whites(s.color), s.heap[h].arr) && ValsClear(Whites(s.color), s.heap[h].nodes)
  }

  ghost predicate KeysCleared(s: St, h: Ref) {
    LiveKeys(Whites(s.color), Nodes(s.heap, h))
  }

  lemma ClearFacts(s0: St, s: St, h: Ref)
    requires Clearing(s0, s) && h in s0.heap && s0.heap[h].Table? && h in s0.color && s0.color[h].Gray?
    requires MarkInv(s, {})
    ensures h in s.heap && s.heap[h].Table? && h in s.color && s.color[h].Gray?
  {
    hide MarkInv;
    assert ObjTrim(s0.heap[h], s.heap[h]);
  }

  lemma ArrayStaysClear(s0: St, s: St, h: Ref)
    requires Clearing(s0, s) && h in s0.heap && s0.heap[h].Table? && NoneIn(Whites(s0.color), s0.heap[h].arr)
    ensures h in s.heap && s.heap[h].Table? && NoneIn(Whites(s.color), s.heap[h].arr)
  {
    assert ObjTrim(s0.heap[h], s.heap[h]);
  }

  lemma ClearedKept(s: St, s': St, h: Ref)
    requires Trim(s.heap, s'.heap) && Whites(s'.color) <= Whites(s.color)
    ensures ValuesCleared(s, h) ==> ValuesCleared(s', h)
    ensures KeysCleared(s, h) ==> KeysCleared(s', h)
  {
    if h in s.heap && s.heap[h].Table? {
      assert ObjTrim(s.heap[h], s'.heap[h]);
      assert forall i :: 0 <= i < |s.heap[h].nodes| ==> NodeTrim(s.heap[h].nodes[i], s'.heap[h].nodes[i]);
    }
    if h in s'.heap && s'.heap[h].Table? { assert ObjTrim(s.heap[h], s'.heap[h]); }
  }

  ghost predicate AllValuesCleared(s: St, l: seq<Ref>) {
    forall r :: r in l ==> ValuesCleared(s, r)
  }

  ghost predicate AllKeysCleared(s: St, l: seq<Ref>) {
    forall r :: r in l ==> KeysCleared(s, r)
  }

  lemma AllClearedKept(s: St, s': St, l: seq<Ref>)
    requires Trim(s.heap, s'.heap) && Whites(s'.color) <= Whites(s.color)
    ensures AllValuesCleared(s, l) ==> AllValuesCleared(s', l)
    ensures AllKeysCleared(s, l) ==> AllKeysCleared(s', l)
  {
    forall r | r in l
      ensures ValuesCleared(s, r) ==> ValuesCleared(s', r)
      ensures KeysCleared(s, r) ==> KeysCleared(s', r)
    {
      ClearedKept(s, s', r);
    }
  }

  // The tables of a list of gray tables.
  ghost predicate GrayTables(s: St, l: seq<Ref>) {
    forall r :: r in l ==> r in s.heap && s.heap[r].Table? && r in s.color && s.color[r].Gray?
  }

  lemma GrayTablesKept(s: St, s': St, l: seq<Ref>)
    requires GrayTables(s, l) && Clearing(s, s')
    ensures GrayTables(s', l)
  {
    forall r | r in l ensures r in s'.heap && s'.heap[r].Table? { assert ObjTrim(s.heap[r], s'.heap[r]); }
  }

  // What clearing one more table of the list contributes.
  lemma KeysStep(s0: St, s: St, s': St, l: seq<Ref>, i: nat)
    requires i < |l| && Clearing(s0, s) && Clearing(s, s') && GrayTables(s, l)
    requires AllKeysCleared(s, l[..i]) && KeysCleared(s', l[i])
    ensures Clearing(s0, s') && GrayTables(s', l) && AllKeysCleared(s', l[..i + 1])
  {
    hide KeysCleared, GrayTables;
    ClearingTransitive(s0, s, s');
    GrayTablesKept(s, s', l);
    AllClearedKept(s, s', l[..i]);
    assert l[..i + 1] == l[..i] + [l[i]];
  }

  lemma ValuesStep(s0: St, s: St, s': St, l: seq<Ref>, i: nat)
    requires i < |l| && Clearing(s0, s) && Clearing(s, s') && GrayTables(s, l)
    requires AllValuesCleared(s, l[..i]) && ValuesCleared(s', l[i])
    ensures Clearing(s0, s') && GrayTables(s', l) && AllValuesCleared(s', l[..i + 1])
  {
    hide ValuesCleared, GrayTables;
    ClearingTransitive(s0, s, s');
    GrayTablesKept(s, s', l);
    AllClearedKept(s, s', l[..i]);
    assert l[..i + 1] == l[..i] + [l[i]];
  }

  lemma GrayTableAt(s: St, l: seq<Ref>, i: nat)
    requires GrayTables(s, l) && i < |l|
    ensures l[i] in s.heap && s.heap[l[i]].Table? && l[i] in s.color && s.color[l[i]].Gray?
  {
    assert l[i] in l;
  }

  // clearkeys on the tables of a list.
  method ClearKeys(g: GlobalState, l: seq<Ref>)
    requires AllKeyStrs(g.heap, g.bound, l) && g.clearing && GrayTables(g.View(), l) && MarkInv(g.View(), {})
    modifies g`heap, g`color, g`gray, g`loc
    ensures AllKeysCleared(g.View(), l) && Clearing(old(g.View()), g.View())
    ensures ChangedIn(old(g.heap), g.heap, old(Whites(g.color)), Elements(l), true)
    ensures g.clearing && MarkInv(g.View(), {})
  {
    hide MarkInv, Clearing, AllKeysCleared, GrayTables, LiveKeys, KeyStrs, ChangedIn, Elements;
    ClearingReflexive(g.View());
    assert AllKeysCleared(g.View(), []) by { AllClearedStart(g.View()); }
    ChangedStart(g.heap, Whites(g.color), Elements([]), true);
    assert l[..0] == [];
    for i := 0 to |l|
      invariant AllKeyStrs(g.heap, g.bound, l) && g.clearing && GrayTables(g.View(), l) && AllKeysCleared(g.View(), l[..i])
      invariant Clearing(old(g.View()), g.View()) && ChangedIn(old(g.heap), g.heap, old(Whites(g.color)), Elements(l[..i]), true)
      invariant MarkInv(g.View(), {})
    {
      ghost var s := g.View();
      GrayTableAt(s, l, i);
      ClearKeysTable(g, l[i]);
      AllStrsCleared(s, g.View(), l);
      KeysStep(old(g.View()), s, g.View(), l, i);
      ChangedStep(old(g.View()), s, g.View(), l, i, true);
    }
    assert l[..|l|] == l;
  }

  // clearvalues on the tables of a list.
  method ClearValues(g: GlobalState, l: seq<Ref>)
    requires AllValStrs(g.heap, g.bound, l) && g.clearing && GrayTables(g.View(), l) && MarkInv(g.View(), {})
    modifies g`heap, g`color, g`gray, g`loc
    ensures AllValuesCleared(g.View(), l) && Clearing(old(g.View()), g.View())
    ensures ChangedIn(old(g.heap), g.heap, old(Whites(g.color)), Elements(l), false)
    ensures g.clearing && MarkInv(g.View(), {})
  {
    hide MarkInv, Clearing, AllValuesCleared, GrayTables, ValuesCleared, ValStrs, ChangedIn, Elements;
    ClearingReflexive(g.View());
    assert AllValuesCleared(g.View(), []) by { AllClearedStart(g.View()); }
    ChangedStart(g.heap, Whites(g.color), Elements([]), false);
    assert l[..0] == [];
    for i := 0 to |l|
      invariant AllValStrs(g.heap, g.bound, l) && g.clearing && GrayTables(g.View(), l) && AllValuesCleared(g.View(), l[..i])
      invariant Clearing(old(g.View()), g.View()) && ChangedIn(old(g.heap), g.heap, old(Whites(g.color)), Elements(l[..i]), false)
      invariant MarkInv(g.View(), {})
    {
      ghost var s := g.View();
      GrayTableAt(s, l, i);
      ClearValuesTable(g, l[i]);
      AllStrsCleared(s, g.View(), l);
      ValuesStep(old(g.View()), s, g.View(), l, i);
      ChangedStep(old(g.View()), s, g.View(), l, i, false);
    }
    assert l[..|l|] == l;
  }

  lemma ChangedStep(s0: St, s: St, s': St, l: seq<Ref>, i: nat, keys: bool)
    requires i < |l| && Clearing(s0, s) && ChangedIn(s0.heap, s.heap, Whites(s0.color), Elements(l[..i]), keys)
    requires ChangedIn(s.heap, s'.heap, Whites(s.color), {l[i]}, keys)
    ensures ChangedIn(s0.heap, s'.heap, Whites(s0.color), Elements(l[..i + 1]), keys)
  {
    hide ChangedIn;
    ClearingTrim(s0, s);
    ChangedTransitive(s0.heap, s.heap, s'.heap, Whites(s0.color), Whites(s.color), Elements(l[..i]), {l[i]}, keys);
    assert Elements(l[..i + 1]) == Elements(l[..i]) + {l[i]} by { assert l[..i + 1] == l[..i] + [l[i]]; }
  }

  lemma AllClearedStart(s: St)
    ensures AllValuesCleared(s, []) && AllKeysCleared(s, [])
  {}
}
