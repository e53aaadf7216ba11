// The elementary marking steps on a snapshot: white2gray, gray2black, linkgclist,
// taking an object off the gray list, keeping a table gray.

module GcSteps {
  import opened Common
  import opened GcHeap
  import opened GcInvariants
  import opened GcState

  // ------------------------------------------------------------------- the lists

  lemma ListPush(loc: Locs, l: Loc, s: seq<Ref>, o: Ref)
    requires ListIs(loc, l, s) && o in loc && loc[o] == NoList && l != NoList
    ensures ListIs(loc[o := l], l, [o] + s)
  {
    assert o !in s;
    var loc' := loc[o := l];
    assert forall r :: r in loc && loc[r] == l ==> r in s;
    forall r | r in loc' && loc'[r] == l ensures r in [o] + s {
      if r != o { assert loc[r] == l; }
    }
  }

  lemma ListPop(loc: Locs, l: Loc, s: seq<Ref>)
    requires ListIs(loc, l, s) && s != [] && l != NoList
    ensures s[0] in loc && loc[s[0]] == l && ListIs(loc[s[0] := NoList], l, s[1..])
  {
    assert s[0] in s;
    var loc' := loc[s[0] := NoList];
    forall r | r in loc' && loc'[r] == l ensures r in s[1..] {
      assert r in s && r != s[0];
    }
    forall i | 0 <= i < |s[1..]| ensures s[1..][i] in loc' && loc'[s[1..][i]] == l {
      assert s[i + 1] in s && s[i + 1] != s[0];
    }
  }

  lemma ListOther(loc: Locs, l: Loc, s: seq<Ref>, o: Ref, l': Loc)
    requires ListIs(loc, l, s) && o in loc && loc[o] != l && l' != l
    ensures ListIs(loc[o := l'], l, s)
  {
    var loc' := loc[o := l'];
    forall r | r in loc' && loc'[r] == l ensures r in s {}
  }

  lemma ListsOther(s: St, o: Ref, l: Loc, l': Loc)
    requires Lists(s) && o in s.loc && s.loc[o] == l
    ensures l != GrayL && l' != GrayL ==> ListIs(s.loc[o := l'], GrayL, s.gray)
    ensures l != AgainL && l' != AgainL ==> ListIs(s.loc[o := l'], AgainL, s.again)
    ensures l != WeakL && l' != WeakL ==> ListIs(s.loc[o := l'], WeakL, s.weak)
    ensures l != EphL && l' != EphL ==> ListIs(s.loc[o := l'], EphL, s.ephemeron)
    ensures l !in {AllWeakL, ClearL} && l' !in {AllWeakL, ClearL} ==> AllWeakIs(s.loc[o := l'], s.allweak)
    ensures l != WorkL && l' != WorkL ==> ListIs(s.loc[o := l'], WorkL, s.work)
  {
    if l != GrayL && l' != GrayL { ListOther(s.loc, GrayL, s.gray, o, l'); }
    if l != AgainL && l' != AgainL { ListOther(s.loc, AgainL, s.again, o, l'); }
    if l != WeakL && l' != WeakL { ListOther(s.loc, WeakL, s.weak, o, l'); }
    if l != EphL && l' != EphL { ListOther(s.loc, EphL, s.ephemeron, o, l'); }
    if l !in {AllWeakL, ClearL} && l' !in {AllWeakL, ClearL} {
      ListOther(Merged(s.loc), AllWeakL, s.allweak, o, l');
      assert Merged(s.loc[o := l']) == Merged(s.loc)[o := l'];
    }
    if l != WorkL && l' != WorkL { ListOther(s.loc, WorkL, s.work, o, l'); }
  }

  // ------------------------------------------------------------ marking an object

  ghost predicate Markable(s: St, o: Ref, skip: set<Ref>) {
    MarkInv(s, skip) && o in s.heap && o in s.bound && IsWhite(s.color, o)
  }

  lemma White2GrayInv(s: St, o: Ref, skip: set<Ref>)
    requires Markable(s, o, skip)
    ensures MarkInv(s.(color := s.color[o := Gray]), skip + {o})
  {
    var s' := s.(color := s.color[o := Gray]);
    hide HeapWF, Exist, NoDead, FixedOk, TwupsOk, StuckOk, BlackInv, GrayInv, BoundClosed, MarkedWithin, ListIs, AllWeakIs;
    RecolorInv(s, s', skip, skip + {o});
  }

  lemma Gray2BlackInv(s: St, o: Ref, skip: set<Ref>)
    requires MarkInv(s, skip + {o}) && o in s.heap && s.color[o].Gray? && s.loc[o] == NoList
    ensures MarkInv(s.(color := s.color[o := Black]), skip + {o})
  {
    var s' := s.(color := s.color[o := Black]);
    hide HeapWF, Exist, NoDead, FixedOk, TwupsOk, StuckOk, BlackInv, GrayInv, BoundClosed, MarkedWithin, ListIs, AllWeakIs;
    RecolorInv(s, s', skip + {o}, skip + {o});
  }

  lemma Black2GrayInv(s: St, o: Ref, skip: set<Ref>)
    requires MarkInv(s, skip + {o}) && o in s.heap && s.color[o].Black?
    ensures MarkInv(s.(color := s.color[o := Gray]), skip + {o})
  {
    var s' := s.(color := s.color[o := Gray]);
    hide HeapWF, Exist, NoDead, FixedOk, TwupsOk, StuckOk, BlackInv, GrayInv, BoundClosed, MarkedWithin, ListIs, AllWeakIs;
    RecolorInv(s, s', skip + {o}, skip + {o});
  }

  // linkgclist on an object that is in no list.
  function Link(s: St, o: Ref, l: Loc): St {
    s.(loc := s.loc[o := l],
       gray := if l == GrayL then [o] + s.gray else s.gray,
       again := if l == AgainL then [o] + s.again else s.again,
       weak := if l == WeakL then [o] + s.weak else s.weak,
       ephemeron := if l == EphL then [o] + s.ephemeron else s.ephemeron,
       allweak := if l == AllWeakL || l == ClearL then [o] + s.allweak else s.allweak,
       work := if l == WorkL then [o] + s.work else s.work)
  }

  lemma LinkLists(s: St, o: Ref, l: Loc)
    requires Lists(s) && o in s.loc && s.loc[o] == NoList
    requires l in {WeakL, EphL, WorkL} ==> s.inside
    ensures Lists(Link(s, o, l))
  {
    ListsOther(s, o, NoList, l);
    if l == AllWeakL || l == ClearL {
      ListPush(Merged(s.loc), AllWeakL, s.allweak, o);
      assert Merged(s.loc[o := l]) == Merged(s.loc)[o := AllWeakL];
    }
    match l
    case NoList =>
    case GrayL => ListPush(s.loc, l, s.gray, o);
    case AgainL => ListPush(s.loc, l, s.again, o);
    case WeakL => ListPush(s.loc, l, s.weak, o);
    case EphL => ListPush(s.loc, l, s.ephemeron, o);
    case AllWeakL =>
    case ClearL =>
    case WorkL => ListPush(s.loc, l, s.work, o);
  }

  lemma LinkAccounted(s: St, o: Ref, l: Loc, skip: set<Ref>)
    requires LocsOk(s.heap, s.color, s.loc) && o in s.heap && s.color[o].Gray? && s.loc[o] == NoList
    requires LocOk(l, s.heap[o]) && o !in s.stuck
    ensures SameObjects(s, Link(s, o, l)) && Recolor(s.color, Link(s, o, l).color)
    ensures Accounted(s, Link(s, o, l), skip + {o}, skip + {o})
    ensures LocsOk(Link(s, o, l).heap, Link(s, o, l).color, Link(s, o, l).loc)
  {}

  lemma LinkInv(s: St, o: Ref, l: Loc, skip: set<Ref>)
    requires MarkInv(s, skip + {o}) && o in s.heap && s.color[o].Gray? && s.loc[o] == NoList
    requires LocOk(l, s.heap[o]) && o !in s.stuck && (l in {WeakL, EphL, WorkL} ==> s.inside)
    ensures MarkInv(Link(s, o, l), skip + {o})
  {
    LinkLists(s, o, l);
    LinkAccounted(s, o, l, skip);
    hide HeapWF, Exist, NoDead, FixedOk, TwupsOk, StuckOk, BlackInv, GrayInv, BoundClosed, MarkedWithin, ListIs, AllWeakIs, Lists;
    hide LocsOk, Accounted, Recolor, SameObjects, Link;
    RecolorInv(s, Link(s, o, l), skip + {o}, skip + {o});
  }

  lemma LinkKeeps(s: St, o: Ref, l: Loc)
    ensures Link(s, o, l).heap == s.heap && Link(s, o, l).color == s.color && Link(s, o, l).stuck == s.stuck
    ensures o in Link(s, o, l).loc && Link(s, o, l).loc[o] == l
  {}

  lemma LinkPendingInv(s: St, o: Ref, l: Loc, skip: set<Ref>)
    requires MarkInv(s, skip + {o}) && o in s.heap && s.color[o].Gray? && s.loc[o] == NoList
    requires LocOk(l, s.heap[o]) && o !in s.stuck && l in {GrayL, AgainL}
    ensures MarkInv(Link(s, o, l), skip)
  {
    hide MarkInv, Recolor, LocOk;
    InHeap(s, skip + {o}, o);
    LinkInv(s, o, l, skip);
    LinkKeeps(s, o, l);
    hide Link;
    FinishInv(Link(s, o, l), skip, o);
  }

  // Taking the first object off the gray list and colouring it black.
  function PopGray(s: St): St
    requires s.gray != [] && s.gray[0] in s.loc
  {
    s.(gray := s.gray[1..], loc := s.loc[s.gray[0] := NoList], color := s.color[s.gray[0] := Black])
  }

  lemma PopGrayAccounted(s: St)
    requires Lists(s) && LocsOk(s.heap, s.color, s.loc) && s.gray != []
    ensures s.gray[0] in s.heap && s.color[s.gray[0]].Gray? && s.loc[s.gray[0]] == GrayL
    ensures SameObjects(s, PopGray(s)) && Recolor(s.color, PopGray(s).color)
    ensures Accounted(s, PopGray(s), {}, {s.gray[0]})
    ensures LocsOk(s.heap, PopGray(s).color, PopGray(s).loc)
  {
    assert s.gray[0] in s.gray;
  }

  lemma PopGrayLists(s: St)
    requires Lists(s) && s.gray != [] && s.gray[0] in s.loc
    ensures Lists(PopGray(s))
  {
    ListPop(s.loc, GrayL, s.gray);
    ListsOther(s, s.gray[0], GrayL, NoList);
  }

  lemma PopGrayInv(s: St)
    requires MarkInv(s, {}) && s.gray != []
    ensures s.gray[0] in s.heap && s.color[s.gray[0]].Gray? && s.loc[s.gray[0]] == GrayL
    ensures MarkInv(PopGray(s), {s.gray[0]})
  {
    hide HeapWF, Exist, NoDead, FixedOk, TwupsOk, StuckOk, BlackInv, GrayInv, BoundClosed, MarkedWithin, ListIs, AllWeakIs;
    PopGrayAccounted(s);
    PopGrayLists(s);
    hide Lists, LocsOk, Accounted, Recolor;
    RecolorInv(s, PopGray(s), {}, {s.gray[0]});
  }

  // ------------------------------------------------------------- what marking does

  // Marking turns whites gray or black and may link newly marked objects; linked
  // objects stay where they are.
  ghost predicate Marking(s: St, s': St) {
    && Marks(s.color, s'.color)
    && LocKeeps(s.color, s.loc, s'.loc)
    && (s'.color == s.color ==> s'.gray == s.gray) && (s.gray != [] ==> s'.gray != [])
  }

  lemma MarkingMarks(s: St, s': St)
    requires Marking(s, s')
    ensures Marks(s.color, s'.color)
  {}

  lemma MarkingReflexive(s: St)
    ensures Marking(s, s)
  {}

  lemma MarkingColor(s: St, o: Ref, c: Color)
    requires IsWhite(s.color, o) && !c.White?
    ensures Marking(s, s.(color := s.color[o := c]))
  {}

  lemma MarkingLinkGray(s: St, s': St, o: Ref)
    requires Marking(s, s') && IsWhite(s.color, o) && o in s'.loc
    requires o in s'.color && !s'.color[o].White?
    ensures Marking(s, Link(s', o, GrayL))
  {
    assert s'.color[o] != s.color[o];
  }

  // gray2black on an object that this very marking has turned gray.
  lemma MarkingBlacken(s: St, s': St, o: Ref)
    requires Marking(s, s') && IsWhite(s.color, o) && o in s'.color && s'.color[o].Gray?
    ensures Marking(s, s'.(color := s'.color[o := Black]))
  {
    assert s'.color[o := Black][o] != s.color[o];
  }

  // Marking leaves what is marked alone.
  lemma MarkingKeeps(s: St, s': St, o: Ref)
    requires Marking(s, s')
    ensures s'.color.Keys == s.color.Keys && s'.loc.Keys == s.loc.Keys
    ensures Whites(s'.color) <= Whites(s.color)
    ensures o in s.color && !s.color[o].White? ==> s'.color[o] == s.color[o]
    ensures o in s.color && !s.color[o].White? && o in s.loc ==> s'.loc[o] == s.loc[o]
  {}

  lemma MarkingTransitive(s: St, s': St, s'': St)
    requires Marking(s, s') && Marking(s', s'')
    ensures Marking(s, s'')
  {
    if s''.color == s.color {
      assert forall r :: r in s.color ==> s'.color[r] == s.color[r];
      assert s'.color == s.color;
    }
  }

  // An object to be marked that is neither a string nor a userdata.
  ghost predicate TurnsGray(s: St, v: Value) {
    v.Obj? && IsWhite(s.color, v.ref) && v.ref in s.heap && !s.heap[v.ref].Str? && !s.heap[v.ref].Udata?
  }

  // ... and its marking.
  function Grayed(s: St, o: Ref): St {
    s.(color := s.color[o := Gray], loc := s.loc[o := GrayL], gray := [o] + s.gray)
  }

  // ------------------------------------------------------- strings and userdata

  lemma InHeap(s: St, skip: set<Ref>, o: Ref)
    requires MarkInv(s, skip) && o in s.heap
    ensures o in s.color && o in s.loc
    ensures s.loc[o] != NoList ==> s.color[o].Gray?
  {}

  // What a marked object leads to is in the bound, so it exists and may be marked.
  lemma ChildBound(s: St, skip: set<Ref>, o: Ref)
    requires MarkInv(s, skip) && o in s.bound
    ensures s.bound <= s.heap.Keys && o in s.heap
    ensures o !in s.stuck ==> ObjBound(s.heap, s.upv, s.bound, s.heap[o])
  {}

  lemma MarkedBound(s: St, skip: set<Ref>, o: Ref)
    requires MarkInv(s, skip) && o in s.heap && !IsWhite(s.color, o)
    ensures o in s.bound
  {}

  lemma NotStuck(s: St, skip: set<Ref>, o: Ref)
    requires MarkInv(s, skip) && IsWhite(s.color, o)
    ensures o !in s.stuck
  {}

  lemma MarkableValue(s: St, skip: set<Ref>, v: Value)
    requires MarkInv(s, skip) && InB(s.bound, v) && v.Obj? && IsWhite(s.color, v.ref)
    ensures Markable(s, v.ref, skip)
  {}

  lemma FinishStr(s: St, o: Ref, skip: set<Ref>)
    requires MarkInv(s, skip + {o}) && o in s.heap && s.heap[o].Str? && o in s.color && s.color[o].Black?
    ensures MarkInv(s, skip)
  {
    InHeap(s, skip + {o}, o);
    hide MarkInv;
    FinishInv(s, skip, o);
  }

  lemma MarkUdataInv(s: St, o: Ref, skip: set<Ref>)
    requires MarkInv(s, skip + {o}) && o in s.heap && s.heap[o].Udata?
    requires o in s.color && s.color[o].Black?
    requires !OptIn(Whites(s.color), s.heap[o].umeta) && !In(Whites(s.color), s.heap[o].uservalue)
    ensures MarkInv(s, skip)
  {
    InHeap(s, skip + {o}, o);
    hide MarkInv;
    FinishInv(s, skip, o);
  }

  // --------------------------------------------------- what a whole traversal does

  // t is s with elements added in front.
  ghost predicate Suffix<T>(s: seq<T>, t: seq<T>) {
    |s| <= |t| && t[|t| - |s|..] == s
  }

  // Objects only lose weak entries, whites only become fewer, weak lists only grow.
  ghost predicate Progress(s: St, s': St) {
    && Trim(s.heap, s'.heap) && SameUpvals(s.upv, s'.upv)
    && s'.color.Keys == s.color.Keys && Whites(s'.color) <= Whites(s.color)
    && s'.white == s.white && s'.inside == s.inside && s'.remarked == s.remarked
    && s'.fixed == s.fixed && s'.bound == s.bound && s'.stuck == s.stuck
    && Suffix(s.weak, s'.weak) && Suffix(s.allweak, s'.allweak)
    && (if s.remarked then s'.again == s.again else s'.twups == s.twups) && LosesOnly(s.heap, s'.heap, Losable(s))
    && s'.clearing == s.clearing && (ModesKept(s) ==> ModesKept(s')) && Emptied(s.heap, s'.heap, Whites(s'.color))
    && ListedKeeps(s, s') && FlagsWithin(s'.heap, s.upv, s'.upv, s'.bound) && FlagsServed(s'.heap, s.upv, s'.upv, Whites(s'.color))
  }

  // Only all-weak tables that are not stuck are put in the list 'allweak' without having
  // been traversed.
  ghost predicate ListedKeeps(s: St, s': St) {
    forall r :: r in s'.loc && s'.loc[r] == AllWeakL ==>
      (r in s.loc && s.loc[r] == AllWeakL) || (r in s'.heap && s'.heap[r].Table? && s'.heap[r].mode.AllWeak? && r !in s'.stuck)
  }

  // Only open upvalues get flagged whose value marking may follow anyway.
  ghost predicate FlagsWithin(h: Heap, u: Upvals, u': Upvals, b: set<Ref>) {
    forall id :: id in u' && u'[id].Open? && u'[id].touched ==>
      (id in u && u[id].Open? && u[id].touched) || InB(b, UvValue(h, u', id))
  }

  // A flag is only taken away when the value has been marked.
  ghost predicate FlagsServed(h: Heap, u: Upvals, u': Upvals, W: iset<Ref>) {
    forall id :: id in u && u[id].Open? && u[id].touched ==>
      (id in u' && u'[id].Open? && u'[id].touched) || !In(W, UvValue(h, u', id))
  }

  lemma TouchFlags(h: Heap, u: Upvals, id: UvId, b: set<Ref>, W: iset<Ref>)
    requires id in u && u[id].Open? && InB(b, UvValue(h, u, id))
    ensures FlagsWithin(h, u, u[id := u[id].(touched := true)], b)
    ensures FlagsServed(h, u, u[id := u[id].(touched := true)], W)
  {}

  lemma ServedTransitive(h: Heap, h': Heap, u: Upvals, u': Upvals, u'': Upvals, W: iset<Ref>, W': iset<Ref>)
    requires FlagsServed(h, u, u', W) && FlagsServed(h', u', u'', W') && Trim(h, h') && SameUpvals(u', u'') && W' <= W
    ensures FlagsServed(h', u, u'', W')
  {
    forall id | id in u && u[id].Open? && u[id].touched && !(id in u'' && u''[id].Open? && u''[id].touched)
      ensures !In(W', UvValue(h', u'', id))
    {
      if id in u' && u'[id].Open? && u'[id].thread in h { assert ObjTrim(h[u'[id].thread], h'[u'[id].thread]); }
    }
  }

  lemma FlagsTransitive(h: Heap, h': Heap, u: Upvals, u': Upvals, u'': Upvals, b: set<Ref>)
    requires FlagsWithin(h, u, u', b) && FlagsWithin(h', u', u'', b) && Trim(h, h') && SameUpvals(u', u'')
    ensures FlagsWithin(h', u, u'', b)
  {
    forall id | id in u'' && u''[id].Open? && u''[id].touched && !(id in u && u[id].Open? && u[id].touched)
      ensures InB(b, UvValue(h', u'', id))
    {
      if u'[id].touched && u'[id].thread in h { assert ObjTrim(h[u'[id].thread], h'[u'[id].thread]); }
    }
  }

  lemma ListedTransitive(s: St, s': St, s'': St)
    requires ListedKeeps(s, s') && ListedKeeps(s', s'') && Trim(s'.heap, s''.heap) && s''.stuck == s'.stuck
    ensures ListedKeeps(s, s'')
  {
    forall r | r in s'.heap ensures ObjTrim(s'.heap[r], s''.heap[r]) {}
  }

  // The all-weak tables that are linked still are all-weak: the program may change
  // the mode of such a table after it has been linked.
  ghost predicate ModesKept(s: St) {
    forall r :: r in s.loc && r in s.heap && s.loc[r] == AllWeakL ==> s.heap[r].Table? && s.heap[r].mode.AllWeak?
  }

  // What tables may lose: nothing while marking, unmarked objects while clearing.
  ghost function Losable(s: St): iset<Ref> {
    if s.clearing then Whites(s.color) else iset{}
  }

  lemma ProgressTransitive(s: St, s': St, s'': St)
    requires Progress(s, s') && Progress(s', s'')
    ensures Progress(s, s'')
  {
    TrimTransitive(s.heap, s'.heap, s''.heap);
    LosesTransitive(s.heap, s'.heap, s''.heap, Losable(s), Losable(s'));
    EmptiedTransitive(s.heap, s'.heap, s''.heap, Whites(s'.color), Whites(s''.color));
    ListedTransitive(s, s', s'');
    FlagsTransitive(s'.heap, s''.heap, s.upv, s'.upv, s''.upv, s.bound);
    ServedTransitive(s'.heap, s''.heap, s.upv, s'.upv, s''.upv, Whites(s'.color), Whites(s''.color));
    hide Trim, LosesOnly, Emptied, ListedKeeps, FlagsWithin, FlagsServed;
  }

  // Nothing has been erased from objects that are the same.
  lemma NothingErased(h: Heap, u: Upvals, W: iset<Ref>, W': iset<Ref>)
    ensures Trim(h, h) && SameUpvals(u, u) && LosesOnly(h, h, W) && Emptied(h, h, W')
    ensures FlagsServed(h, u, u, W') && forall b: set<Ref> :: FlagsWithin(h, u, u, b)
  {}

  lemma MarkingProgress(s: St, s': St)
    requires Marking(s, s') && s' == s.(color := s'.color, loc := s'.loc, gray := s'.gray)
    ensures Progress(s, s')
  {
    hide Trim, SameUpvals, LosesOnly, Emptied, Losable, FlagsWithin, FlagsServed;
    NothingErased(s.heap, s.upv, Losable(s), Whites(s'.color));
  }

  lemma NoneInMono(W: iset<Ref>, W': iset<Ref>, vs: seq<Value>)
    requires NoneIn(W, vs) && W' <= W
    ensures NoneIn(W', vs)
  {}

  lemma NoneInStep(W: iset<Ref>, W': iset<Ref>, vs: seq<Value>, i: nat)
    requires i < |vs| && NoneIn(W, vs[..i]) && W' <= W && !In(W', vs[i])
    ensures NoneIn(W', vs[..i + 1])
  {
    assert vs[..i + 1] == vs[..i] + [vs[i]];
  }

  lemma NoneInEmpty(W: iset<Ref>, vs: seq<Value>)
    ensures NoneIn(W, vs[..0])
  {}

  // ------------------------------------------------------------------ traversals

  lemma TrimAt(s: St, h: Ref, o': Object)
    requires MarkInv(s, {h}) && h in s.heap && ObjTrim(s.heap[h], o')
    requires s.heap[h].Table? ==> TableLoses(s.heap, Losable(s), s.heap[h], o') && EmptiedOk(Whites(s.color), s.heap[h].nodes, o'.nodes)
    ensures MarkInv(s.(heap := s.heap[h := o']), {h}) && Progress(s, s.(heap := s.heap[h := o']))
  {
    hide MarkInv;
    assert s.(heap := s.heap[h := o']) == s.(heap := s.heap[h := o'], upv := s.upv);
    TrimInv(s, s.heap[h := o'], s.upv, {h});
  }

  ghost predicate EntriesClear(W: iset<Ref>, ns: seq<Node>, n: nat) {
    forall i :: 0 <= i < |ns| && i < n ==> NodeClear(W, ns[i])
  }

  lemma EntriesClearStep(W: iset<Ref>, ns: seq<Node>, W': iset<Ref>, ns': seq<Node>, n: nat)
    requires EntriesClear(W, ns, n) && W' <= W && n < |ns'| == |ns|
    requires (forall i :: 0 <= i < n ==> ns'[i] == ns[i]) && NodeClear(W', ns'[n])
    ensures EntriesClear(W', ns', n + 1)
  {}

  // A traversal of 'h' keeps what it has not reached yet.
  ghost predicate Walked(t: Object, t': Object, n: nat)
    requires t.Table?
  {
    && t'.Table? && t' == t.(nodes := t'.nodes) && NodesTrim(t.nodes, t'.nodes)
    && forall i :: n <= i < |t.nodes| ==> t'.nodes[i] == t.nodes[i]
  }

  ghost predicate Unmoved(s: St, s': St, h: Ref) {
    && s'.color.Keys == s.color.Keys && s'.loc.Keys == s.loc.Keys
    && (h in s.color && h in s.loc && !s.color[h].White? ==> s'.color[h] == s.color[h] && s'.loc[h] == s.loc[h])
    && (Whites(s'.color) == Whites(s.color) ==> s'.gray == s.gray)
  }

  lemma UnmovedTransitive(s: St, s': St, s'': St, h: Ref)
    requires Unmoved(s, s', h) && Unmoved(s', s'', h)
    requires Whites(s''.color) <= Whites(s'.color) <= Whites(s.color)
    ensures Unmoved(s, s'', h)
  {}

  lemma MarkingUnmoved(s: St, s': St, h: Ref)
    requires Marking(s, s')
    ensures Unmoved(s, s', h)
  {
    if Whites(s'.color) == Whites(s.color) {
      assert forall r :: r in s.color ==> (r in Whites(s.color) <==> r in Whites(s'.color));
      assert s'.color == s.color;
    }
  }

  // The traversal of table 'h', begun in s0, has dealt with its first n nodes.
  ghost predicate Traversing(s0: St, s: St, h: Ref, n: nat) {
    && MarkInv(s, {h}) && Progress(s0, s) && Unmoved(s0, s, h)
    && h in s0.heap && s0.heap[h].Table? && s0.bound <= s0.heap.Keys
    && (h !in s0.stuck ==> ObjBound(s0.heap, s0.upv, s0.bound, s0.heap[h]))
    && h in s.heap && Walked(s0.heap[h], s.heap[h], n)
  }

  lemma TraversingMark(s0: St, s: St, s': St, h: Ref, n: nat)
    requires Traversing(s0, s, h, n) && Marking(s, s') && MarkInv(s', {h})
    requires s' == s.(color := s'.color, loc := s'.loc, gray := s'.gray)
    ensures Traversing(s0, s', h, n)
  {
    MarkingKeeps(s, s', h);
    MarkingProgress(s, s');
    MarkingUnmoved(s, s', h);
    hide MarkInv, Marking, Unmoved;
    UnmovedTransitive(s0, s, s', h);
    ProgressTransitive(s0, s, s');
  }

  lemma TraversingErase(s0: St, s: St, h: Ref, n: nat, node: Node)
    requires Traversing(s0, s, h, n) && n < |Nodes(s0.heap, h)|
    requires NodeTrim(Nodes(s0.heap, h)[n], node)
    requires s0.heap[h].mode.AllWeak? && Nodes(s0.heap, h)[n].val.Nil? ==> node == Nodes(s0.heap, h)[n]
    requires node.val == Nodes(s0.heap, h)[n].val || (EntryLost(s.heap, Losable(s), Nodes(s0.heap, h)[n]) && KeyClear(Whites(s.color), node))
    ensures Traversing(s0, s.(heap := s.heap[h := s.heap[h].(nodes := s.heap[h].nodes[n := node])]), h, n + 1)
  {
    hide MarkInv, Progress, Unmoved, ObjBound;
    var t := s.heap[h];
    var t' := t.(nodes := t.nodes[n := node]);
    assert t.nodes[n] == s0.heap[h].nodes[n];
    assert ObjTrim(t, t');
    TrimAt(s, h, t');
    ProgressTransitive(s0, s, s.(heap := s.heap[h := t']));
    UnmovedHeap(s0, s, s.heap[h := t'], h);
    assert Walked(s0.heap[h], t', n + 1);
  }

  lemma UnmovedHeap(s0: St, s: St, h': Heap, h: Ref)
    requires Unmoved(s0, s, h)
    ensures Unmoved(s0, s.(heap := h'), h)
  {}

  // What is known of the table being traversed.
  lemma Walking(s0: St, s: St, h: Ref, n: nat)
    requires Traversing(s0, s, h, n)
    ensures h in s.heap && s.heap[h].Table? && h in s0.heap && s0.heap[h].Table?
    ensures s.heap[h] == s0.heap[h].(nodes := s.heap[h].nodes)
    ensures |Nodes(s.heap, h)| == |Nodes(s0.heap, h)| && s.bound == s0.bound && s.bound <= s.heap.Keys
    ensures n < |Nodes(s0.heap, h)| ==> Nodes(s.heap, h)[n] == Nodes(s0.heap, h)[n]
    ensures h !in s0.stuck ==> ObjBound(s0.heap, s0.upv, s0.bound, s0.heap[h])
    ensures Whites(s.color) <= Whites(s0.color)
  {}

  lemma ArrayBound(s: St, h: Ref, i: nat)
    requires Traversing(s, s, h, 0) && h !in s.stuck && s.heap[h].mode in {Strong, Ephemeron} && i < |s.heap[h].arr|
    ensures InB(s.bound, s.heap[h].arr[i])
  {
    hide MarkInv, Progress, Unmoved, Walked;
  }

  lemma TraversingNext(s0: St, s: St, h: Ref, n: nat)
    requires Traversing(s0, s, h, n)
    ensures Traversing(s0, s, h, n + 1)
  {}

  lemma ChildExists(s: St, skip: set<Ref>, o: Ref)
    requires MarkInv(s, skip) && o in s.heap
    ensures Clear(s.heap, s.upv, Missing(s.heap), s.heap[o])
  {}

  lemma SkipAccounted(s: St, skip: set<Ref>, o: Ref)
    ensures Accounted(s, s, skip, skip + {o})
  {}

  lemma SkipMore(s: St, skip: set<Ref>, o: Ref)
    requires MarkInv(s, skip)
    ensures MarkInv(s, skip + {o})
  {
    hide HeapWF, Exist, Lists, LocsOk, NoDead, FixedOk, TwupsOk, StuckOk, BlackInv, GrayInv, BoundClosed, MarkedWithin;
    SkipAccounted(s, skip, o);
    hide Accounted;
    RecolorInv(s, s, skip, skip + {o});
  }

  // -------------------------------------------------------------- weak tables

  // While an ephemeron table or a weak-value table is walked.
  ghost predicate KeysClearTo(W: iset<Ref>, ns: seq<Node>, n: nat) {
    forall i :: 0 <= i < |ns| && i < n ==> KeyClear(W, ns[i])
  }

  ghost predicate EmptyClearTo(W: iset<Ref>, ns: seq<Node>, n: nat) {
    forall i :: 0 <= i < |ns| && i < n && ns[i].val.Nil? ==> KeyClear(W, ns[i])
  }

  ghost predicate ValsClearTo(W: iset<Ref>, ns: seq<Node>, n: nat) {
    forall i :: 0 <= i < |ns| && i < n ==> !In(W, ns[i].val)
  }

  // An entry whose key is marked (or is a string, hence never weak) has a marked value.
  ghost predicate EphEntry(h: Heap, W: iset<Ref>, n: Node) {
    n.val.Nil? || (In(W, n.key) && !IsStr(h, n.key)) || !In(W, n.val)
  }

  ghost predicate EphClosedTo(h: Heap, W: iset<Ref>, ns: seq<Node>, n: nat) {
    forall i :: 0 <= i < |ns| && i < n ==> EphEntry(h, W, ns[i])
  }

  ghost predicate OnlyStrings(h: Heap, W: iset<Ref>, W': iset<Ref>) {
    W' <= W && forall r :: r in W ==> r in W' || IsStr(h, Obj(r))
  }

  lemma KeysClearStep(W: iset<Ref>, ns: seq<Node>, W': iset<Ref>, ns': seq<Node>, n: nat)
    requires KeysClearTo(W, ns, n) && W' <= W && n < |ns'| == |ns|
    requires (forall i :: 0 <= i < n ==> ns'[i] == ns[i]) && KeyClear(W', ns'[n])
    ensures KeysClearTo(W', ns', n + 1)
  {}

  lemma EmptyClearStep(W: iset<Ref>, ns: seq<Node>, W': iset<Ref>, ns': seq<Node>, n: nat)
    requires EmptyClearTo(W, ns, n) && W' <= W && n < |ns'| == |ns|
    requires (forall i :: 0 <= i < n ==> ns'[i] == ns[i]) && (ns'[n].val.Nil? ==> KeyClear(W', ns'[n]))
    ensures EmptyClearTo(W', ns', n + 1)
  {}

  lemma ValsClearStep(W: iset<Ref>, ns: seq<Node>, W': iset<Ref>, ns': seq<Node>, n: nat)
    requires ValsClearTo(W, ns, n) && W' <= W && n < |ns'| == |ns|
    requires (forall i :: 0 <= i < n ==> ns'[i] == ns[i]) && !In(W', ns'[n].val)
    ensures ValsClearTo(W', ns', n + 1)
  {}

  lemma EphClosedStep(h: Heap, W: iset<Ref>, ns: seq<Node>, W': iset<Ref>, ns': seq<Node>, n: nat)
    requires EphClosedTo(h, W, ns, n) && OnlyStrings(h, W, W') && n < |ns'| == |ns|
    requires forall i :: 0 <= i < n ==> ns'[i] == ns[i]
    requires EphEntry(h, W', ns'[n])
    ensures EphClosedTo(h, W', ns', n + 1)
  {}

  lemma TraversingStart(s: St, h: Ref)
    requires MarkInv(s, {h}) && h in s.heap && s.heap[h].Table? && h in s.bound
    ensures Traversing(s, s, h, 0)
  {
    hide MarkInv;
    ChildBound(s, {h}, h);
    TrimReflexive(s.heap);
  }

  lemma TraversingStop(s0: St, s: St, h: Ref, n: nat)
    requires Traversing(s0, s, h, n)
    ensures MarkInv(s, {h}) && Progress(s0, s) && Unmoved(s0, s, h)
  {}

  lemma EntriesClearStart(W: iset<Ref>, ns: seq<Node>)
    ensures EntriesClear(W, ns, 0)
  {}

  lemma EntriesClearStop(W: iset<Ref>, ns: seq<Node>)
    requires EntriesClear(W, ns, |ns|)
    ensures forall i :: 0 <= i < |ns| ==> NodeClear(W, ns[i])
  {}

  lemma EntryExists(s0: St, s: St, h: Ref, n: nat, i: nat)
    requires Traversing(s0, s, h, n) && i < |Nodes(s.heap, h)|
    ensures NodeClear(Missing(s.heap), Nodes(s.heap, h)[i])
    ensures Nodes(s.heap, h)[i].dead ==> Nodes(s.heap, h)[i].val.Nil?
  {
    ChildExists(s, {h}, h);
    hide MarkInv;
  }

  lemma OnlyStringMarked(s: St, s': St, r: Ref)
    requires s'.heap == s.heap && r in s.heap && s.heap[r].Str?
    requires s'.color == s.color || s'.color == s.color[r := Black]
    ensures OnlyStrings(s.heap, Whites(s.color), Whites(s'.color))
  {}

  lemma LinkedTable(s: St, o: Ref, l: Loc)
    requires MarkInv(Link(s, o, l), {o}) && o in s.heap && o in s.color && o in s.loc
    requires s.heap[o].Table? && (s.inside || l == AllWeakL) && s.color[o].Gray? && GrayDone(Whites(s.color), l, s.heap[o])
    ensures MarkInv(Link(s, o, l), {})
  {
    hide MarkInv, GrayDone;
    assert {} + {o} == {o};
    FinishInv(Link(s, o, l), {}, o);
  }

  lemma LinkProgress(s0: St, s: St, o: Ref, l: Loc)
    requires Progress(s0, s) && (l == AgainL ==> !s.remarked)
    requires l == AllWeakL ==> o in s.heap && s.heap[o].Table? && s.heap[o].mode.AllWeak? && o !in s.stuck
    ensures Progress(s0, Link(s, o, l))
  {
    LinkStep(s, o, l);
    hide Progress, Link;
    ProgressTransitive(s0, s, Link(s, o, l));
  }

  lemma LinkStep(s: St, o: Ref, l: Loc)
    requires l == AgainL ==> !s.remarked
    requires l == AllWeakL ==> o in s.heap && s.heap[o].Table? && s.heap[o].mode.AllWeak? && o !in s.stuck
    ensures Progress(s, Link(s, o, l))
  {
    LinkListed(s, o, l);
    LinkSuffix(s, o, l);
    NothingErased(s.heap, s.upv, Losable(s), Whites(s.color));
    hide Trim, SameUpvals, LosesOnly, Emptied, Losable, ListedKeeps, ModesKept, Suffix, FlagsWithin, FlagsServed;
  }

  lemma LinkListed(s: St, o: Ref, l: Loc)
    requires l == AllWeakL ==> o in s.heap && s.heap[o].Table? && s.heap[o].mode.AllWeak? && o !in s.stuck
    ensures ListedKeeps(s, Link(s, o, l)) && (ModesKept(s) ==> ModesKept(Link(s, o, l)))
  {}

  lemma LinkSuffix(s: St, o: Ref, l: Loc)
    ensures Suffix(s.weak, Link(s, o, l).weak) && Suffix(s.allweak, Link(s, o, l).allweak)
  {
    assert ([o] + s.weak)[1..] == s.weak && ([o] + s.allweak)[1..] == s.allweak;
  }

  lemma ClearToStart(W: iset<Ref>, ns: seq<Node>)
    ensures KeysClearTo(W, ns, 0) && ValsClearTo(W, ns, 0)
  {}

  lemma ClearToStop(W: iset<Ref>, ns: seq<Node>)
    ensures KeysClearTo(W, ns, |ns|) ==> KeysClear(W, ns)
    ensures ValsClearTo(W, ns, |ns|) ==> ValsClear(W, ns)
  {}

  // The traversal changes no object into a string or back.
  lemma SameStrings(s0: St, s: St, h: Ref, n: nat)
    requires Traversing(s0, s, h, n)
    ensures SameStrs(s0.heap, s.heap)
  {
    hide MarkInv, Walked, Unmoved;
    assert forall r :: r in s.heap ==> r in s0.heap && ObjTrim(s0.heap[r], s.heap[r]);
  }

  // A marked key is in the bound, so the rule for ephemeron entries applies to it.
  lemma KeyBound(s0: St, s: St, h: Ref, n: nat, key: Value)
    requires Traversing(s0, s, h, n) && !In(Missing(s.heap), key) && !In(Whites(s.color), key)
    ensures InB(s.bound, key)
  {}

  // What is known of the first n entries of an ephemeron table after a walk over them.
  ghost predicate EphWalked(s0: St, s: St, h: Ref, n: nat, marked: bool, hasclears: bool, hasww: bool) {
    && EmptyClearTo(Whites(s.color), Nodes(s.heap, h), n)
    && (!hasclears ==> KeysClearTo(Whites(s.color), Nodes(s.heap, h), n))
    && (!hasww ==> ValsClearTo(Whites(s.color), Nodes(s.heap, h), n))
    && (if marked then Whites(s.color) != Whites(s0.color)
        else && OnlyStrings(s0.heap, Whites(s0.color), Whites(s.color)) && s.gray == s0.gray
             && EphClosedTo(s0.heap, Whites(s.color), Nodes(s.heap, h), n))
  }

  // What a live entry, or an empty one, contributes.
  ghost predicate EphStep(s: St, s': St, n: Node, marked: bool, clears: bool, ww: bool) {
    && Whites(s'.color) <= Whites(s.color)
    && (n.val.Nil? || !clears ==> KeyClear(Whites(s'.color), n))
    && (!ww ==> !In(Whites(s'.color), n.val))
    && (if marked then Whites(s'.color) != Whites(s.color)
        else s'.gray == s.gray && OnlyStrings(s.heap, Whites(s.color), Whites(s'.color)) && EphEntry(s.heap, Whites(s'.color), n))
  }

  ghost predicate SameStrs(h: Heap, h': Heap) {
    forall v: Value :: IsStr(h, v) <==> IsStr(h', v)
  }

  lemma EphWalkedStep(s0: St, s: St, s': St, h: Ref, i: nat, marked: bool, clears: bool, ww: bool, m: bool, c: bool, w: bool)
    requires EphWalked(s0, s, h, i, marked, clears, ww) && Whites(s.color) <= Whites(s0.color)
    requires i < |Nodes(s.heap, h)| == |Nodes(s'.heap, h)|
    requires forall j :: 0 <= j < i ==> Nodes(s'.heap, h)[j] == Nodes(s.heap, h)[j]
    requires EphStep(s, s', Nodes(s'.heap, h)[i], m, c, w) && SameStrs(s0.heap, s.heap)
    ensures EphWalked(s0, s', h, i + 1, marked || m, clears || c, ww || w)
  {
    var W, ns, W', ns' := Whites(s.color), Nodes(s.heap, h), Whites(s'.color), Nodes(s'.heap, h);
    EmptyClearStep(W, ns, W', ns', i);
    if !(clears || c) { KeysClearStep(W, ns, W', ns', i); }
    if !(ww || w) { ValsClearStep(W, ns, W', ns', i); }
    if !(marked || m) {
      assert EphEntry(s0.heap, W', ns'[i]);
      EphClosedStep(s0.heap, W, ns, W', ns', i);
    }
  }

  lemma EphWalkedStart(s0: St, s: St, h: Ref, marked: bool)
    requires if marked then Whites(s.color) != Whites(s0.color) else Whites(s.color) == Whites(s0.color) && s.gray == s0.gray
    ensures EphWalked(s0, s, h, 0, marked, false, false)
  {}

  // After the walk: which list the table has to go to.
  lemma EphWalkedStop(s0: St, s: St, h: Ref, n: nat, marked: bool, clears: bool, ww: bool)
    requires EphWalked(s0, s, h, n, marked, clears, ww) && n == |Nodes(s.heap, h)| && h in s.heap
    requires s.heap[h].Table? && s.heap[h].mode.Ephemeron?
    requires !OptIn(Whites(s.color), s.heap[h].meta) && NoneIn(Whites(s.color), s.heap[h].arr)
    ensures GrayDone(Whites(s.color), if ww then EphL else if clears then ClearL else NoList, s.heap[h])
    ensures !marked ==> EphClosedTo(s0.heap, Whites(s.color), Nodes(s.heap, h), n)
    ensures !marked ==> OnlyStrings(s0.heap, Whites(s0.color), Whites(s.color)) && s.gray == s0.gray
    ensures marked ==> Whites(s.color) != Whites(s0.color)
  {}

  // After the walk over a table with weak values: which list it has to go to.
  lemma WeakValueWalked(s0: St, s: St, h: Ref, hasclears: bool)
    requires Traversing(s0, s, h, |Nodes(s0.heap, h)|) && h in s0.heap && s0.heap[h].Table? && s0.heap[h].mode.WeakValues?
    requires !OptIn(Whites(s0.color), s0.heap[h].meta) && h in s0.color && s0.color[h].Gray? && h in s0.loc
    requires KeysClear(Whites(s.color), Nodes(s.heap, h))
    requires !hasclears ==> |s0.heap[h].arr| == 0 && ValsClear(Whites(s.color), Nodes(s.heap, h))
    ensures h in s.heap && s.heap[h].Table? && s.color.Keys == s0.color.Keys && s.color[h] == s0.color[h] && h in s.loc && s.loc[h] == s0.loc[h]
    ensures var l := if hasclears then WeakL else NoList; GrayDone(Whites(s.color), l, s.heap[h]) && LocOk(l, s.heap[h])
    ensures MarkInv(s, {h}) && Progress(s0, s) && Unmoved(s0, s, h) && s.stuck == s0.stuck
  {
    hide MarkInv, Traversing, Progress;
    Walking(s0, s, h, |Nodes(s0.heap, h)|);
    TraversingStop(s0, s, h, |Nodes(s0.heap, h)|);
    ProgressStuck(s0, s);
  }

  lemma ProgressStuck(s: St, s': St)
    requires Progress(s, s')
    ensures s'.stuck == s.stuck && s'.color.Keys == s.color.Keys && Whites(s'.color) <= Whites(s.color)
  {}

  lemma FinishBlack(s: St, h: Ref)
    requires MarkInv(s, {h}) && h in s.heap && !s.heap[h].Thread? && h in s.color && s.color[h].Black?
    requires BlackOk(s.heap, s.upv, Whites(s.color), Rule(s), s.loc, {h}, s.heap[h])
    ensures MarkInv(s, {})
  {
    InHeap(s, {h}, h);
    hide MarkInv, BlackOk;
    assert {} + {h} == {h};
    FinishInv(s, {}, h);
  }

  lemma GrayedProgress(s: St, s': St, h: Ref)
    requires h in s.color && s.color[h].Black? && s' == s.(color := s.color[h := Gray])
    ensures Progress(s, s') && Whites(s'.color) == Whites(s.color)
  {
    hide Trim, SameUpvals, LosesOnly, Emptied, Losable, FlagsWithin, FlagsServed;
    NothingErased(s.heap, s.upv, Losable(s), Whites(s'.color));
  }

  lemma ProgressWhites(s: St, s': St)
    requires Progress(s, s')
    ensures Whites(s'.color) <= Whites(s.color) && s'.color.Keys == s.color.Keys
    ensures s'.heap.Keys == s.heap.Keys && s'.bound == s.bound && s'.inside == s.inside && s'.remarked == s.remarked
  {}

  lemma ProgressReflexive(s: St)
    ensures Progress(s, s)
  {}

  // The traversal of 'h' began in s0 and has come to s.
  ghost predicate During(s0: St, s: St, h: Ref) {
    MarkInv(s, {h}) && Progress(s0, s) && Unmoved(s0, s, h)
  }

  lemma DuringStart(s: St, h: Ref)
    requires MarkInv(s, {h})
    ensures During(s, s, h)
  {
    hide MarkInv;
    ProgressReflexive(s);
  }

  lemma DuringMark(s0: St, s: St, s': St, h: Ref)
    requires During(s0, s, h) && Marking(s, s') && MarkInv(s', {h})
    requires s' == s.(color := s'.color, loc := s'.loc, gray := s'.gray)
    ensures During(s0, s', h)
  {
    MarkingKeeps(s, s', h);
    MarkingProgress(s, s');
    MarkingUnmoved(s, s', h);
    ProgressWhites(s0, s);
    hide MarkInv, Marking, Progress;
    UnmovedTransitive(s0, s, s', h);
    ProgressTransitive(s0, s, s');
  }

  lemma DuringTrim(s0: St, s: St, h: Ref, h': Heap, u': Upvals)
    requires During(s0, s, h) && Trim(s.heap, h') && SameOutside(s.heap, h', {h}) && TouchKeeps(s.upv, u', Rule(s))
    requires LosesOnly(s.heap, h', Losable(s)) && Emptied(s.heap, h', Whites(s.color)) && FlagsWithin(h', s.upv, u', s.bound)
    requires FlagsServed(h', s.upv, u', Whites(s.color))
    ensures During(s0, s.(heap := h', upv := u'), h)
  {
    var s' := s.(heap := h', upv := u');
    hide MarkInv;
    TrimInv(s, h', u', {h});
    assert Progress(s, s');
    hide Trim, TouchKeeps, SameUpvals, Progress, LosesOnly, Emptied, FlagsWithin, FlagsServed;
    ProgressTransitive(s0, s, s');
  }

  lemma DuringStop(s0: St, s: St, h: Ref)
    requires During(s0, s, h)
    ensures MarkInv(s, {h}) && Progress(s0, s)
    ensures Whites(s.color) <= Whites(s0.color) && (Whites(s.color) == Whites(s0.color) ==> s.gray == s0.gray)
    ensures s.bound == s0.bound && s.heap.Keys == s0.heap.Keys && s.color.Keys == s0.color.Keys
    ensures s.inside == s0.inside && s.remarked == s0.remarked
    ensures h in s0.color && h in s0.loc && !s0.color[h].White? ==>
              s.color[h] == s0.color[h] && h in s.loc && s.loc[h] == s0.loc[h]
  {
    hide MarkInv;
  }

  // -------------------------------------------------------------- Lua closures

  ghost predicate UpvalsBlackTo(s: St, h: Ref, ids: seq<Option<UvId>>, n: nat) {
    forall i :: 0 <= i < |ids| && i < n && ids[i].Some? ==>
      UvBlack(s.heap, s.upv, Whites(s.color), Rule(s), s.loc, {h}, ids[i].value)
  }

  lemma UpvalOf(s: St, h: Ref, n: nat)
    requires h in s.heap && s.heap[h].LClosure? && n < |s.heap[h].upvals| && h in s.bound
    requires MarkInv(s, {h})
    ensures s.heap[h].upvals[n].Some? ==>
              s.heap[h].upvals[n].value in s.upv && InB(s.bound, UvValue(s.heap, s.upv, s.heap[h].upvals[n].value))
  {
    assert ObjectWF(s.upv, h, s.heap[h]) && ObjBound(s.heap, s.upv, s.bound, s.heap[h]);
  }

  lemma UpvalsBlackTouch(s: St, h: Ref, ids: seq<Option<UvId>>, n: nat)
    requires UpvalsBlackTo(s, h, ids, n) && n < |ids| && ids[n].Some? && !s.remarked
    requires ids[n].value in s.upv && s.upv[ids[n].value].Open?
    ensures var id := ids[n].value;
      UpvalsBlackTo(s.(upv := s.upv[id := s.upv[id].(touched := true)]), h, ids, n + 1)
  {
    var id := ids[n].value;
    var s' := s.(upv := s.upv[id := s.upv[id].(touched := true)]);
    forall i | 0 <= i < |ids| && i < n + 1 && ids[i].Some?
      ensures UvBlack(s'.heap, s'.upv, Whites(s'.color), Rule(s'), s'.loc, {h}, ids[i].value)
    {
      if i < n {
        assert UvBlack(s.heap, s.upv, Whites(s.color), Rule(s), s.loc, {h}, ids[i].value);
      }
    }
  }

  lemma UpvalsBlackMark(s: St, s': St, h: Ref, ids: seq<Option<UvId>>, n: nat)
    requires UpvalsBlackTo(s, h, ids, n) && n < |ids|
    requires Marking(s, s') && s' == s.(color := s'.color, loc := s'.loc, gray := s'.gray)
    requires LocsOk(s.heap, s.color, s.loc)
    requires ids[n].Some? ==> UvBlack(s'.heap, s'.upv, Whites(s'.color), Rule(s'), s'.loc, {h}, ids[n].value)
    ensures UpvalsBlackTo(s', h, ids, n + 1)
  {
    MarkingKeeps(s, s', h);
    forall i | 0 <= i < |ids| && i < n + 1 && ids[i].Some?
      ensures UvBlack(s'.heap, s'.upv, Whites(s'.color), Rule(s'), s'.loc, {h}, ids[i].value)
    {
      if i < n {
        var id := ids[i].value;
        assert UvBlack(s.heap, s.upv, Whites(s.color), Rule(s), s.loc, {h}, id);
        if id in s.upv && s.upv[id].Open? && Pending(s.loc, s.upv[id].thread) {
          MarkingKeeps(s, s', s.upv[id].thread);
        }
      }
    }
  }

  lemma UpvalsBlackSkip(s: St, h: Ref, ids: seq<Option<UvId>>, n: nat)
    requires UpvalsBlackTo(s, h, ids, n) && n < |ids| && ids[n].None?
    ensures UpvalsBlackTo(s, h, ids, n + 1)
  {}

  lemma MarkInvLocs(s: St, skip: set<Ref>)
    requires MarkInv(s, skip)
    ensures LocsOk(s.heap, s.color, s.loc)
  {}

  lemma UpvalsBlackStart(s: St, h: Ref, ids: seq<Option<UvId>>)
    ensures UpvalsBlackTo(s, h, ids, 0)
  {}

  lemma UpvalsBlackStop(s: St, h: Ref)
    requires h in s.heap && s.heap[h].LClosure? && !OptIn(Whites(s.color), s.heap[h].proto)
    requires UpvalsBlackTo(s, h, s.heap[h].upvals, |s.heap[h].upvals|)
    ensures BlackOk(s.heap, s.upv, Whites(s.color), Rule(s), s.loc, {h}, s.heap[h])
  {}

  lemma TouchReflexive(u: Upvals, rule: UvRule)
    ensures TouchKeeps(u, u, rule)
    ensures forall h: Heap, b: set<Ref> :: FlagsWithin(h, u, u, b)
    ensures forall h: Heap, W: iset<Ref> :: FlagsServed(h, u, u, W)
  {}

  // ------------------------------------------------------------------- threads

  lemma ThreadBound(s: St, th: Ref)
    requires MarkInv(s, {th}) && th in s.bound && th in s.heap && s.heap[th].Thread?
    ensures s.heap[th].top <= |s.heap[th].stack| && AllInB(s.bound, s.heap[th].stack[..s.heap[th].top])
  {
    assert ObjectWF(s.upv, th, s.heap[th]) && ObjBound(s.heap, s.upv, s.bound, s.heap[th]);
  }

  lemma RelinkTwups(s: St, th: Ref)
    requires TwupsOk(s.heap, s.color, s.loc, s.twups, s.inside, s.remarked, {th}) && th !in s.twups
    requires th in s.heap && s.heap[th].Thread? && !IsWhite(s.color, th)
    ensures TwupsOk(s.heap, s.color, s.loc, [th] + s.twups, s.inside, s.remarked, {th})
  {}

  lemma RelinkInv(s: St, th: Ref)
    requires MarkInv(s, {th}) && th !in s.twups && s.remarked
    requires th in s.heap && s.heap[th].Thread? && !IsWhite(s.color, th)
    ensures MarkInv(s.(twups := [th] + s.twups), {th})
    ensures Progress(s, s.(twups := [th] + s.twups))
  {
    hide HeapWF, Exist, LocsOk, NoDead, FixedOk, TwupsOk, StuckOk, BlackInv, GrayInv, BoundClosed, MarkedWithin, ListIs, AllWeakIs;
    RelinkTwups(s, th);
  }

  lemma RelinkDuring(s0: St, s: St, th: Ref)
    requires During(s0, s, th) && th !in s.twups && s.remarked
    requires th in s.heap && s.heap[th].Thread? && !IsWhite(s.color, th)
    ensures During(s0, s.(twups := [th] + s.twups), th)
  {
    hide MarkInv;
    RelinkInv(s, th);
    hide Progress;
    ProgressTransitive(s0, s, s.(twups := [th] + s.twups));
  }

  lemma FinishThread(s: St, th: Ref)
    requires th in s.heap && s.heap[th].Thread? && th in s.color && s.color[th].Gray? && s.inside
    requires NoneIn(Whites(s.color), s.heap[th].stack) && (th in s.twups || OpenUpvals(s.heap, th) == [])
    requires MarkInv(s, {th})
    ensures MarkInv(s, {})
  {
    hide MarkInv;
    InHeap(s, {th}, th);
    assert {} + {th} == {th};
    FinishInv(s, {}, th);
  }

  lemma FinishPending(s: St, h: Ref)
    requires h in s.heap && h in s.color && s.color[h].Gray? && h in s.loc && Pending(s.loc, h)
    requires MarkInv(s, {h})
    ensures MarkInv(s, {})
  {
    hide MarkInv;
    assert {} + {h} == {h};
    FinishInv(s, {}, h);
  }

  // --------------------------------------------------------------- propagatemark

  lemma PopProgress(s: St)
    requires s.gray != [] && s.gray[0] in s.loc && s.gray[0] in s.color && s.color[s.gray[0]].Gray?
    ensures Progress(s, PopGray(s)) && Whites(PopGray(s).color) == Whites(s.color)
  {
    hide Trim, SameUpvals, LosesOnly, Emptied, Losable, FlagsWithin, FlagsServed;
    NothingErased(s.heap, s.upv, Losable(s), Whites(PopGray(s).color));
  }

  lemma PopKind(s: St)
    requires MarkInv(s, {}) && s.gray != []
    ensures s.gray[0] in s.heap && !s.heap[s.gray[0]].Str? && !s.heap[s.gray[0]].Udata? && s.gray[0] !in s.stuck
  {
    assert s.gray[0] in s.gray;
    hide HeapWF, Exist, NoDead, FixedOk, TwupsOk, StuckOk, BlackInv, GrayInv, BoundClosed, MarkedWithin;
  }

  lemma PopFacts(s: St)
    requires MarkInv(s, {}) && s.gray != []
    ensures var o := s.gray[0];
      && o in s.loc && o in s.bound && o in s.heap && o in s.color && !s.heap[o].Str? && !s.heap[o].Udata? && o !in s.stuck
      && var s' := PopGray(s);
         && MarkInv(s', {o}) && Progress(s, s') && Whites(s'.color) == Whites(s.color)
         && o in s'.color && s'.color[o].Black? && o in s'.loc && s'.loc[o] == NoList && s'.gray == s.gray[1..]
         && s' == s.(color := s'.color, gray := s'.gray, loc := s'.loc)
  {
    hide MarkInv, Progress;
    PopGrayInv(s);
    PopKind(s);
    InHeap(s, {}, s.gray[0]);
    MarkedBound(s, {}, s.gray[0]);
    PopProgress(s);
  }
}
