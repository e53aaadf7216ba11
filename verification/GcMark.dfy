// The collector's state and its marking half: reallymarkobject, the traversals,
// propagatemark and propagateall.

module GcMark {
  import opened Common
  import opened GcHeap
  import opened GcInvariants
  import opened GcState
  import opened GcSteps

  datatype GcPhase =
    | Propagate | Atomic | SwpAllGc | SwpFinObj | SwpToBeFnz | SwpEnd | CallFin | Pause
    | InsideAtomic

  ghost function WhiteSet(c: Colors): set<Ref> {
    set r | r in c && c[r].White?
  }

  lemma WhiteSetShrinks(c: Colors, c': Colors)
    requires Whites(c') <= Whites(c)
    ensures WhiteSet(c') <= WhiteSet(c)
  {
    forall r | r in WhiteSet(c') ensures r in WhiteSet(c) { assert r in Whites(c'); }
  }

  lemma WhiteSetDrops(c: Colors, c': Colors, o: Ref)
    requires Whites(c') <= Whites(c) && IsWhite(c, o) && !IsWhite(c', o)
    ensures WhiteSet(c') < WhiteSet(c)
  {
    WhiteSetShrinks(c, c');
    assert o in WhiteSet(c) && o !in WhiteSet(c');
  }

  lemma WhiteSetMeasure(c: Colors, c': Colors)
    requires Whites(c') <= Whites(c)
    ensures WhiteSet(c') < WhiteSet(c) || (WhiteSet(c') == WhiteSet(c) && Whites(c') == Whites(c))
  {
    WhiteSetShrinks(c, c');
    if WhiteSet(c') == WhiteSet(c) {
      forall r | r in Whites(c) ensures r in Whites(c') { assert r in WhiteSet(c); }
    }
  }

  // -------------------------------------------------------------- what marking marks

  // Marking a userdata marks its metatable and its user value at once.
  ghost predicate UdataClosed(h: Heap, b: set<Ref>) {
    forall r :: r in b && r in h && h[r].Udata? ==> OptInB(b, h[r].umeta) && InB(b, h[r].uservalue)
  }

  // Only the objects of 'more' have been marked, and what userdata among them lead to.
  ghost predicate MarksFor(h: Heap, c: Colors, c': Colors, more: set<Ref>) {
    forall b: set<Ref>, r: Ref :: more <= b && UdataClosed(h, b) && IsWhite(c, r) && !IsWhite(c', r) ==> r in b
  }

  function ValueRefs(v: Value): set<Ref> {
    if v.Obj? then {v.ref} else {}
  }

  function OptRefs(o: Option<Ref>): set<Ref> {
    if o.Some? then {o.value} else {}
  }

  lemma MarksOne(h: Heap, c: Colors, c': Colors, o: Ref)
    requires forall r :: r in c && r != o ==> r in c' && c'[r] == c[r]
    ensures MarksFor(h, c, c', {o})
  {}

  lemma MarksNothing(h: Heap, c: Colors, more: set<Ref>)
    ensures MarksFor(h, c, c, more)
  {}

  lemma MarksMore(h: Heap, c: Colors, c': Colors, more: set<Ref>, more': set<Ref>)
    requires MarksFor(h, c, c', more) && more <= more'
    ensures MarksFor(h, c, c', more')
  {}

  lemma MarksBlack(h: Heap, c: Colors, c': Colors, o: Ref, more: set<Ref>)
    requires MarksFor(h, c, c', more) && !IsWhite(c', o)
    ensures MarksFor(h, c, c'[o := Black], more)
  {}

  lemma MarksBoth(h: Heap, c: Colors, c': Colors, c'': Colors, more: set<Ref>, more': set<Ref>)
    requires MarksFor(h, c, c', more) && MarksFor(h, c', c'', more')
    ensures MarksFor(h, c, c'', more + more')
  {}

  lemma MarksThen(h: Heap, c: Colors, c': Colors, c'': Colors, more: set<Ref>, more': set<Ref>)
    requires MarksFor(h, c, c', more) && MarksFor(h, c', c'', more')
    requires forall b: set<Ref> :: more <= b && UdataClosed(h, b) ==> more' <= b
    ensures MarksFor(h, c, c'', more)
  {}

  predicate IsMarked(c: Colors, v: Value) {
    v.Obj? ==> !IsWhite(c, v.ref)
  }

  class GlobalState {
    // objects, upvalues and their 'marked' bits
    var heap: Heap
    var upv: Upvals
    var color: Colors
    var currentwhite: bool
    var gcstate: GcPhase
    // gray lists
    var gray: seq<Ref>
    var grayagain: seq<Ref>
    var weak: seq<Ref>
    var ephemeron: seq<Ref>
    var allweak: seq<Ref>
    // object lists; 'sweepgc' is a position in the list of the current sweep state
    var allgc: seq<Ref>
    var finobj: seq<Ref>
    var tobefnz: seq<Ref>
    var fixedgc: seq<Ref>
    var sweepgc: Option<nat>
    // threads with open upvalues, and the roots
    var twups: seq<Ref>
    var mainthread: Ref
    var running: Ref
    var registry: Value
    var mt: seq<Option<Ref>>

    // The parts of a snapshot (see St) that have no field of their own in C.
    ghost var loc: Locs
    ghost var again: seq<Ref>
    ghost var work: seq<Ref>
    ghost var remarked: bool
    ghost var inside: bool
    ghost var clearing: bool
    ghost var bound: set<Ref>
    ghost var stuck: set<Ref>

    // lua_newstate: the main thread is the only object, and no cycle is under way.
    constructor (main: Ref, size: nat, types: nat)
      ensures heap == map[main := Thread(seq(size, _ => Nil), 0, [])] && upv == map[] && color == map[main := White(false)]
      ensures !currentwhite && gcstate == Pause && loc == map[main := NoList] && bound == {main}
      ensures gray == grayagain == weak == ephemeron == allweak == again == work == []
      ensures allgc == finobj == tobefnz == fixedgc == twups == [] && sweepgc == None
      ensures mainthread == running == main && registry == Nil && mt == seq(types, _ => None)
      ensures !inside && !remarked && !clearing && stuck == {}
    {
      heap, upv, color, currentwhite := map[main := Thread(seq(size, _ => Nil), 0, [])], map[], map[main := White(false)], false;
      gcstate, sweepgc := Pause, None;
      gray, grayagain, weak, ephemeron, allweak := [], [], [], [], [];
      allgc, finobj, tobefnz, fixedgc, twups := [], [], [], [], [];
      mainthread, running, registry, mt := main, main, Nil, seq(types, _ => None);
      loc, again, work, bound := map[main := NoList], [], [], {main};
      remarked, inside, clearing, stuck := false, false, false, {};
    }

    ghost function View(): (s: St)
      reads this
    {
      St(heap, upv, color, loc, gray, again, weak, ephemeron, allweak, work, twups,
         currentwhite, inside, remarked, clearing, fixedgc, bound, stuck)
    }

    // ------------------------------------------------------------ marking objects

    method White2Gray(o: Ref, ghost skip: set<Ref>)
      requires Markable(View(), o, skip)
      modifies `color
      ensures MarkInv(View(), skip + {o}) && Marking(old(View()), View())
      ensures color == old(color)[o := Gray] && o in loc && loc[o] == NoList && o !in stuck
    {
      hide MarkInv, Marking;
      InHeap(View(), skip, o);
      NotStuck(View(), skip, o);
      White2GrayInv(View(), o, skip);
      MarkingColor(View(), o, Gray);
      color := color[o := Gray];
    }

    // linkgclist(o, g->gray) on an object that has just become gray.
    method LinkGray(o: Ref, ghost skip: set<Ref>, ghost before: St)
      requires MarkInv(View(), skip + {o}) && o in heap && o in color && o in loc
      requires color[o].Gray? && loc[o] == NoList && o !in stuck && LocOk(GrayL, heap[o])
      requires Marking(before, View()) && IsWhite(before.color, o)
      modifies `gray, `loc
      ensures gray == [o] + old(gray) && loc == old(loc)[o := GrayL]
      ensures MarkInv(View(), skip) && Marking(before, View())
    {
      hide MarkInv, Marking;
      LinkPendingInv(View(), o, GrayL, skip);
      MarkingLinkGray(before, View(), o);
      gray := [o] + gray;
      loc := loc[o := GrayL];
    }

    // gray2black on an object that has just become gray and is in no list.
    method Gray2Black(o: Ref, ghost skip: set<Ref>, ghost before: St)
      requires MarkInv(View(), skip + {o}) && o in heap && o in color && o in loc
      requires color[o].Gray? && loc[o] == NoList
      requires Marking(before, View()) && IsWhite(before.color, o)
      modifies `color
      ensures color == old(color)[o := Black]
      ensures MarkInv(View(), skip + {o}) && Marking(before, View())
    {
      hide MarkInv, Marking;
      Gray2BlackInv(View(), o, skip);
      MarkingBlacken(before, View(), o);
      color := color[o := Black];
    }

    // Marks 'o'. Strings and userdata become black here; other objects become gray
    // and are linked in the 'gray' list.
    method ReallyMark(o: Ref, ghost skip: set<Ref>)
      requires Markable(View(), o, skip)
      modifies `color, `gray, `loc
      ensures MarkInv(View(), skip) && Marking(old(View()), View()) && !IsWhite(color, o)
      ensures heap[o].Str? ==> color == old(color)[o := Black] && loc == old(loc) && gray == old(gray)
      ensures !heap[o].Str? && !heap[o].Udata? ==> View() == Grayed(old(View()), o)
      ensures MarksFor(heap, old(color), color, {o})
      decreases WhiteSet(color), 0
    {
      hide MarkInv, Marking, MarksFor;
      ghost var s0 := View();
      White2Gray(o, skip);
      MarksOne(heap, s0.color, color, o);
      if heap[o].Str? {
        MarkStr(o, skip, s0);
        MarksOne(heap, s0.color, color, o);
      } else if heap[o].Udata? {
        WhiteSetDrops(s0.color, color, o);
        ghost var s1 := View();
        MarkUdata(o, skip, s0);
        MarksThen(heap, s0.color, s1.color, color, {o}, UdataRefs(heap, o)) by { FieldsIn(heap, o); }
      } else {
        LinkGray(o, skip, s0);
      }
    }

    ghost function UdataRefs(h: Heap, o: Ref): set<Ref>
      requires o in h && h[o].Udata?
    {
      OptRefs(h[o].umeta) + ValueRefs(h[o].uservalue)
    }

    lemma FieldsIn(h: Heap, o: Ref)
      requires o in h && h[o].Udata?
      ensures forall b: set<Ref> :: {o} <= b && UdataClosed(h, b) ==> UdataRefs(h, o) <= b
    {
      forall b: set<Ref> | {o} <= b && UdataClosed(h, b) ensures UdataRefs(h, o) <= b {
        assert o in b;
      }
    }

    method MarkStr(o: Ref, ghost skip: set<Ref>, ghost s0: St)
      requires MarkInv(View(), skip + {o}) && o in heap && heap[o].Str? && o in color && o in loc
      requires color[o].Gray? && loc[o] == NoList && Marking(s0, View()) && IsWhite(s0.color, o)
      modifies `color
      ensures color == old(color)[o := Black] && MarkInv(View(), skip) && Marking(s0, View())
    {
      hide MarkInv, Marking;
      Gray2Black(o, skip, s0);
      FinishStr(View(), o, skip);
    }

    // The metatable and the user value of a userdata are marked at once. The goto that
    // marks the user value is the recursive call in tail position.
    method MarkUdata(o: Ref, ghost skip: set<Ref>, ghost s0: St)
      requires MarkInv(View(), skip + {o}) && o in heap && heap[o].Udata? && o in bound && o !in stuck
      requires o in color && color[o].Gray? && o in loc && loc[o] == NoList
      requires Marking(s0, View()) && IsWhite(s0.color, o)
      modifies `color, `gray, `loc
      ensures MarkInv(View(), skip) && Marking(s0, View()) && !IsWhite(color, o)
      ensures MarksFor(heap, old(color), color, UdataRefs(heap, o))
      decreases WhiteSet(color), 3
    {
      hide MarkInv, Marking, Markable, MarksFor, OptRefs, ValueRefs;
      ghost var c := color;
      BlackenUdata(o, skip, s0);
      ghost var s2 := View();
      MarkUserValue(heap[o].uservalue, o, skip);
      MarkingTransitive(s0, s2, View());
      MarkingKeeps(s2, View(), o);
      MarksBoth(heap, c, s2.color, color, OptRefs(heap[o].umeta), ValueRefs(heap[o].uservalue));
      MarkUdataInv(View(), o, skip);
    }

    // The userdata turns black once its metatable is marked.
    method BlackenUdata(o: Ref, ghost skip: set<Ref>, ghost s0: St)
      requires MarkInv(View(), skip + {o}) && o in heap && heap[o].Udata? && o in bound && o !in stuck
      requires o in color && color[o].Gray? && o in loc && loc[o] == NoList
      requires Marking(s0, View()) && IsWhite(s0.color, o)
      modifies `color, `gray, `loc
      ensures MarkInv(View(), skip + {o}) && Marking(s0, View()) && o in color && color[o].Black?
      ensures !OptIn(Whites(color), heap[o].umeta) && WhiteSet(color) <= WhiteSet(old(color))
      ensures InB(bound, heap[o].uservalue) && bound <= heap.Keys
      ensures MarksFor(heap, old(color), color, OptRefs(heap[o].umeta))
      decreases WhiteSet(color), 2
    {
      hide MarkInv, Marking, Markable, MarksFor, OptRefs;
      ghost var s1 := View();
      ChildBound(s1, skip + {o}, o);
      MarkMeta(heap[o].umeta, o, skip);
      MarkingTransitive(s0, s1, View());
      MarkingKeeps(s1, View(), o);
      MarksBlack(heap, s1.color, color, o, OptRefs(heap[o].umeta));
      Gray2Black(o, skip, s0);
      WhiteSetShrinks(s1.color, color);
    }

    // markobjectN on the metatable of the userdata 'o'.
    method MarkMeta(umeta: Option<Ref>, ghost o: Ref, ghost skip: set<Ref>)
      requires MarkInv(View(), skip + {o}) && OptInB(bound, umeta) && bound <= heap.Keys
      modifies `color, `gray, `loc
      ensures MarkInv(View(), skip + {o}) && Marking(old(View()), View()) && !OptIn(Whites(color), umeta)
      ensures MarksFor(heap, old(color), color, OptRefs(umeta))
      decreases WhiteSet(color), 1
    {
      hide MarkInv, Marking, MarksFor;
      if umeta.Some? && IsWhite(color, umeta.value) {
        ReallyMark(umeta.value, skip + {o});
      } else {
        MarkingReflexive(View());
        MarksNothing(heap, color, OptRefs(umeta));
      }
    }

    // The user value of the userdata 'o'.
    method MarkUserValue(uservalue: Value, ghost o: Ref, ghost skip: set<Ref>)
      requires MarkInv(View(), skip + {o}) && InB(bound, uservalue) && bound <= heap.Keys
      modifies `color, `gray, `loc
      ensures MarkInv(View(), skip + {o}) && Marking(old(View()), View()) && IsMarked(color, uservalue)
      ensures MarksFor(heap, old(color), color, ValueRefs(uservalue))
      decreases WhiteSet(color), 1
    {
      hide MarkInv, Marking, MarksFor;
      if !IsMarked(color, uservalue) {
        MarkableValue(View(), skip + {o}, uservalue);
        ReallyMark(uservalue.ref, skip + {o});
      } else {
        MarkingReflexive(View());
        MarksNothing(heap, color, ValueRefs(uservalue));
      }
    }

    // markvalue, while the object 'h' is being traversed.
    method MarkValue(v: Value, ghost h: Ref)
      requires MarkInv(View(), {h}) && InB(bound, v)
      modifies `color, `gray, `loc
      ensures MarkInv(View(), {h}) && Marking(old(View()), View()) && !In(Whites(color), v)
      ensures v.Obj? && v.ref in heap && heap[v.ref].Str? ==>
                gray == old(gray) && loc == old(loc) && (color == old(color) || color == old(color)[v.ref := Black])
    {
      hide MarkInv, Marking;
      if v.Obj? {
        ChildBound(View(), {h}, v.ref);
        if IsWhite(color, v.ref) {
          ReallyMark(v.ref, {h});
          return;
        }
      }
      MarkingReflexive(View());
    }

    method MarkAll(vs: seq<Value>, ghost h: Ref)
      requires MarkInv(View(), {h}) && AllInB(bound, vs)
      modifies `color, `gray, `loc
      ensures MarkInv(View(), {h}) && Marking(old(View()), View()) && NoneIn(Whites(color), vs)
    {
      hide MarkInv, Marking;
      MarkingReflexive(View());
      for i := 0 to |vs|
        invariant MarkInv(View(), {h}) && Marking(old(View()), View()) && NoneIn(Whites(color), vs[..i])
      {
        ghost var s := View();
        MarkValue(vs[i], h);
        MarkingTransitive(old(View()), s, View());
        MarkingKeeps(s, View(), h);
        NoneInMono(Whites(s.color), Whites(color), vs[..i]);
        assert vs[..i + 1] == vs[..i] + [vs[i]];
      }
      assert vs[..|vs|] == vs;
    }

    // markobjectN on each element.
    method MarkAllOpt(os: seq<Option<Ref>>, ghost h: Ref)
      requires MarkInv(View(), {h}) && (forall i :: 0 <= i < |os| ==> OptInB(bound, os[i]))
      modifies `color, `gray, `loc
      ensures MarkInv(View(), {h}) && Marking(old(View()), View()) && NoOptIn(Whites(color), os)
    {
      hide MarkInv, Marking;
      MarkingReflexive(View());
      for i := 0 to |os|
        invariant MarkInv(View(), {h}) && Marking(old(View()), View()) && NoOptIn(Whites(color), os[..i])
      {
        ghost var s := View();
        MarkOpt(os[i], h);
        MarkingTransitive(old(View()), s, View());
        MarkingKeeps(s, View(), h);
        assert os[..i + 1] == os[..i] + [os[i]];
      }
      assert os[..|os|] == os;
    }

    method MarkOpt(o: Option<Ref>, ghost h: Ref)
      requires MarkInv(View(), {h}) && OptInB(bound, o)
      modifies `color, `gray, `loc
      ensures MarkInv(View(), {h}) && Marking(old(View()), View()) && !OptIn(Whites(color), o)
    {
      hide MarkInv, Marking;
      MarkValue(if o.Some? then Obj(o.value) else Nil, h);
    }

    // ------------------------------------------------------------------ traversals

    // The key of an empty entry is forgotten unless it is marked.
    method RemoveEntry(h: Ref, i: nat, ghost s0: St)
      requires i < |Nodes(heap, h)| && Nodes(heap, h)[i].val.Nil? && Traversing(s0, View(), h, i)
      requires h in s0.heap && s0.heap[h].Table? && !s0.heap[h].mode.AllWeak?
      modifies `heap
      ensures |Nodes(heap, h)| == |Nodes(old(heap), h)|
      ensures Nodes(heap, h)[i].val.Nil? && NodeClear(Whites(color), Nodes(heap, h)[i])
      ensures forall j :: 0 <= j < i ==> Nodes(heap, h)[j] == Nodes(old(heap), h)[j]
      ensures Traversing(s0, View(), h, i + 1)
    {
      hide MarkInv, Traversing;
      Walking(s0, View(), h, i);
      var t := heap[h];
      var n := t.nodes[i];
      if !n.dead && n.key.Obj? && IsWhite(color, n.key.ref) {
        n := n.(dead := true);
      }
      TraversingErase(s0, View(), h, i, n);
      heap := heap[h := t.(nodes := t.nodes[i := n])];
    }

    // Marks a value found in the table being traversed.
    method MarkIn(v: Value, h: Ref, ghost s0: St, ghost i: nat)
      requires Traversing(s0, View(), h, i) && InB(bound, v)
      modifies `color, `gray, `loc
      ensures Traversing(s0, View(), h, i) && !In(Whites(color), v) && Whites(color) <= old(Whites(color))
      ensures Marks(old(color), color)
      ensures v.Obj? && v.ref in heap && heap[v.ref].Str? ==>
                gray == old(gray) && loc == old(loc) && (color == old(color) || color == old(color)[v.ref := Black])
    {
      ghost var s := View();
      hide MarkInv, Progress, Marking, Walked, Unmoved;
      MarkValue(v, h);
      TraversingMark(s0, s, View(), h, i);
      MarkingKeeps(s, View(), h);
      MarkingMarks(s, View());
    }

    // One node of a strong table: an empty entry is removed, else key and value marked.
    method StrongEntry(h: Ref, i: nat, ghost s0: St)
      requires Traversing(s0, View(), h, i) && h in s0.heap && s0.heap[h].Table? && s0.heap[h].mode.Strong? && h !in s0.stuck
      requires i < |Nodes(heap, h)| && EntriesClear(Whites(color), Nodes(heap, h), i)
      modifies `heap, `color, `gray, `loc
      ensures Traversing(s0, View(), h, i + 1) && |Nodes(heap, h)| == |Nodes(old(heap), h)|
      ensures EntriesClear(Whites(color), Nodes(heap, h), i + 1) && Whites(color) <= old(Whites(color))
    {
      hide Traversing, EntriesClear;
      ghost var s := View();
      Walking(s0, s, h, i);
      var n := heap[h].nodes[i];
      assert EntryBound(s0.heap, bound, Strong, n);
      if n.val.Nil? {
        RemoveEntry(h, i, s0);
      } else {
        MarkIn(n.key, h, s0, i);
        MarkIn(n.val, h, s0, i);
        TraversingNext(s0, View(), h, i);
      }
      EntriesClearStep(Whites(s.color), Nodes(s.heap, h), Whites(color), Nodes(heap, h), i);
    }

    method TraverseStrongTable(h: Ref)
      requires MarkInv(View(), {h}) && h in bound && h in heap && heap[h].Table? && heap[h].mode.Strong? && h !in stuck
      requires !OptIn(Whites(color), heap[h].meta)
      modifies `heap, `color, `gray, `loc
      ensures MarkInv(View(), {h}) && Progress(old(View()), View()) && Unmoved(old(View()), View(), h)
      ensures h in heap && heap[h].Table? && BlackOk(heap, upv, Whites(color), Rule(View()), loc, {h}, heap[h])
    {
      hide MarkInv, Marking, Traversing, EntriesClear, Progress, Unmoved;
      ghost var s0 := View();
      var t := heap[h];
      ChildBound(s0, {h}, h);
      TraversingStart(s0, h);
      MarkAll(t.arr, h);
      ghost var W := Whites(color);
      TraversingMark(s0, s0, View(), h, 0);
      EntriesClearStart(W, t.nodes);
      for i := 0 to |t.nodes|
        modifies `heap, `color, `gray, `loc
        invariant Traversing(s0, View(), h, i) && Whites(color) <= W
        invariant |Nodes(heap, h)| == |t.nodes| && EntriesClear(Whites(color), Nodes(heap, h), i)
      {
        StrongEntry(h, i, s0);
      }
      Walking(s0, View(), h, |t.nodes|);
      NoneInMono(W, Whites(color), t.arr);
      TraversingStop(s0, View(), h, |t.nodes|);
      EntriesClearStop(Whites(color), Nodes(heap, h));
    }

    // iscleared: may a weak table lose this key or value? A string is marked
    // instead.
    method IsCleared(v: Value, h: Ref, ghost s0: St, ghost i: nat) returns (cleared: bool)
      requires Traversing(s0, View(), h, i) && !In(Missing(heap), v) && StrInB(heap, bound, v)
      modifies `color, `gray, `loc
      ensures Traversing(s0, View(), h, i) && OnlyStrings(heap, old(Whites(color)), Whites(color))
      ensures gray == old(gray) && loc == old(loc) && Marks(old(color), color)
      ensures cleared <==> In(Whites(color), v)
      ensures cleared ==> !IsStr(heap, v)
    {
      ghost var s := View();
      hide MarkInv, Traversing, Marking;
      Walking(s0, s, h, i);
      if v.Obj? && heap[v.ref].Str? {
        MarkIn(v, h, s0, i);
        OnlyStringMarked(s, View(), v.ref);
        cleared := false;
      } else {
        cleared := v.Obj? && IsWhite(color, v.ref);
      }
    }

    // ------------------------------------------------------------------ weak tables

    // Marking and traversing happen in the propagate state, and in the step that
    // runs the atomic phase; 'remarkupvals' comes before the inside traversals.
    ghost predicate TraversalPhase()
      reads this
    {
      && (gcstate == Propagate || (inside && (gcstate == Atomic || gcstate == InsideAtomic)))
      && (gcstate == Propagate ==> !inside)
      && (remarked <==> gcstate == InsideAtomic)
      && (gcstate != InsideAtomic ==> again == grayagain)
    }

    // linkgclist(h, g->grayagain), to revisit h in the atomic phase.
    method LinkGrayAgain(h: Ref)
      requires MarkInv(View(), {h}) && h in heap && h in color && color[h].Gray? && h in loc && loc[h] == NoList
      requires LocOk(AgainL, heap[h]) && h !in stuck && again == grayagain
      modifies `grayagain, `again, `loc
      ensures MarkInv(View(), {}) && View() == Link(old(View()), h, AgainL) && again == grayagain
    {
      hide MarkInv;
      assert {} + {h} == {h};
      LinkPendingInv(View(), h, AgainL, {});
      grayagain := [h] + grayagain;
      again := [h] + again;
      loc := loc[h := AgainL];
    }

    // linkgclist of a table in the list that will clear it; l tells which list.
    method LinkWeakList(h: Ref, l: Loc)
      requires MarkInv(View(), {h}) && h in heap && h in color && color[h].Gray? && h in loc && loc[h] == NoList
      requires heap[h].Table? && (inside || l == AllWeakL) && l in {NoList, WeakL, EphL, AllWeakL, ClearL}
      requires GrayDone(Whites(color), l, heap[h]) && LocOk(l, heap[h]) && h !in stuck
      modifies `weak, `ephemeron, `allweak, `loc
      ensures MarkInv(View(), {}) && View() == Link(old(View()), h, l)
    {
      hide MarkInv, GrayDone, Link, LocOk;
      assert {} + {h} == {h};
      LinkInv(View(), h, l, {});
      LinkedTable(View(), h, l);
      LinkIn(h, l);
    }

    method LinkIn(h: Ref, l: Loc)
      requires l in {NoList, WeakL, EphL, AllWeakL, ClearL}
      modifies `weak, `ephemeron, `allweak, `loc
      ensures View() == Link(old(View()), h, l)
    {
      loc := loc[h := l];
      if l == WeakL {
        weak := [h] + weak;
      } else if l == EphL {
        ephemeron := [h] + ephemeron;
      } else if l == AllWeakL || l == ClearL {
        allweak := [h] + allweak;
      }
    }

    // A traversed weak table is kept for the atomic phase, or for being cleared.
    method LinkWeakTable(h: Ref, l: Loc, ghost s0: St)
      requires MarkInv(View(), {h}) && TraversalPhase() && Progress(s0, View())
      requires h in heap && heap[h].Table? && h !in stuck && h in color && color[h].Gray? && h in loc && loc[h] == NoList
      requires l in {NoList, WeakL, EphL, ClearL} && GrayDone(Whites(color), l, heap[h]) && LocOk(l, heap[h])
      modifies `grayagain, `again, `weak, `ephemeron, `allweak, `loc
      ensures MarkInv(View(), {}) && TraversalPhase() && Progress(s0, View())
      ensures h in loc && loc[h] == (if gcstate == Propagate then AgainL else l)
      ensures ephemeron == old(ephemeron) || ephemeron == [h] + old(ephemeron)
    {
      hide MarkInv, GrayDone, Progress;
      if gcstate == Propagate {
        LinkProgress(s0, View(), h, AgainL);
        LinkGrayAgain(h);
      } else {
        LinkProgress(s0, View(), h, l);
        LinkWeakList(h, l);
      }
    }

    // One node of a table with weak values.
    method WeakValueEntry(h: Ref, i: nat, ghost s0: St, hasclears: bool) returns (clears: bool)
      requires Traversing(s0, View(), h, i) && h in s0.heap && s0.heap[h].Table? && s0.heap[h].mode.WeakValues? && h !in s0.stuck
      requires i < |Nodes(heap, h)| && KeysClearTo(Whites(color), Nodes(heap, h), i)
      requires !hasclears ==> ValsClearTo(Whites(color), Nodes(heap, h), i)
      modifies `heap, `color, `gray, `loc
      ensures Traversing(s0, View(), h, i + 1) && |Nodes(heap, h)| == |Nodes(old(heap), h)|
      ensures KeysClearTo(Whites(color), Nodes(heap, h), i + 1)
      ensures !clears ==> !hasclears && ValsClearTo(Whites(color), Nodes(heap, h), i + 1)
    {
      hide Traversing, KeysClearTo, ValsClearTo;
      ghost var s := View();
      Walking(s0, s, h, i);
      EntryExists(s0, s, h, i, i);
      var n := heap[h].nodes[i];
      assert EntryBound(s0.heap, bound, WeakValues, n);
      SameStrings(s0, s, h, i);
      clears := hasclears;
      if n.val.Nil? {
        RemoveEntry(h, i, s0);
      } else {
        MarkIn(n.key, h, s0, i);
        if !hasclears {
          clears := IsCleared(n.val, h, s0, i);
        }
        TraversingNext(s0, View(), h, i);
      }
      KeysClearStep(Whites(s.color), Nodes(s.heap, h), Whites(color), Nodes(heap, h), i);
      if !clears {
        ValsClearStep(Whites(s.color), Nodes(s.heap, h), Whites(color), Nodes(heap, h), i);
      }
    }

    method WalkWeakValue(h: Ref, ghost s0: St) returns (hasclears: bool)
      requires s0 == View() && Traversing(s0, s0, h, 0) && h in heap && heap[h].Table? && heap[h].mode.WeakValues? && h !in stuck
      modifies `heap, `color, `gray, `loc
      ensures Traversing(s0, View(), h, |Nodes(s0.heap, h)|)
      ensures KeysClear(Whites(color), Nodes(heap, h))
      ensures !hasclears ==> |s0.heap[h].arr| == 0 && ValsClear(Whites(color), Nodes(heap, h))
    {
      hide MarkInv, Traversing, KeysClearTo, ValsClearTo;
      var t := heap[h];
      // the array part is not looked at
      hasclears := |t.arr| > 0;
      ClearToStart(Whites(color), t.nodes);
      for i := 0 to |t.nodes|
        invariant Traversing(s0, View(), h, i)
        invariant |Nodes(heap, h)| == |t.nodes| && KeysClearTo(Whites(color), Nodes(heap, h), i)
        invariant !hasclears ==> |t.arr| == 0 && ValsClearTo(Whites(color), Nodes(heap, h), i)
      {
        hasclears := WeakValueEntry(h, i, s0, hasclears);
      }
      ClearToStop(Whites(color), Nodes(heap, h));
    }

    method TraverseWeakValue(h: Ref)
      requires MarkInv(View(), {h}) && TraversalPhase()
      requires h in bound && h in heap && heap[h].Table? && heap[h].mode.WeakValues? && h !in stuck
      requires h in color && color[h].Gray? && h in loc && loc[h] == NoList && !OptIn(Whites(color), heap[h].meta)
      modifies `heap, `color, `gray, `loc, `grayagain, `again, `weak, `ephemeron, `allweak
      ensures MarkInv(View(), {}) && TraversalPhase() && Progress(old(View()), View())
      ensures Whites(color) == old(Whites(color)) ==> gray == old(gray)
    {
      hide MarkInv, Traversing, KeysClear, ValsClear, Progress, GrayDone, LocOk;
      ghost var s0 := View();
      TraversingStart(s0, h);
      var hasclears := WalkWeakValue(h, s0);
      WeakValueWalked(s0, View(), h, hasclears);
      LinkWeakTable(h, if hasclears then WeakL else NoList, s0);
    }

    // A live entry of an ephemeron table: its value is marked if its key is.
    method EphemeronLive(h: Ref, i: nat, ghost s0: St, n: Node) returns (marked: bool, clears: bool, ww: bool)
      requires i < |Nodes(heap, h)| && n == Nodes(heap, h)[i] && !n.val.Nil?
      requires h !in s0.stuck && h in s0.heap && s0.heap[h].Table? && s0.heap[h].mode.Ephemeron?
      requires Traversing(s0, View(), h, i)
      modifies `color, `gray, `loc
      ensures Traversing(s0, View(), h, i) && EphStep(old(View()), View(), n, marked, clears, ww)
    {
      ghost var s := View();
      hide MarkInv, Traversing;
      Walking(s0, s, h, i);
      EntryExists(s0, s, h, i, i);
      SameStrings(s0, s, h, i);
      assert EntryBound(s0.heap, bound, Ephemeron, n);
      marked, ww := false, false;
      clears := IsCleared(n.key, h, s0, i);
      if clears {
        ww := !IsMarked(color, n.val);
      } else {
        KeyBound(s0, View(), h, i, n.key);
        if !IsMarked(color, n.val) {
          marked := true;
          MarkIn(n.val, h, s0, i);
        }
      }
    }

    // One node of an ephemeron table.
    method EphemeronEntry(h: Ref, i: nat, ghost s0: St, marked: bool, hasclears: bool, hasww: bool)
      returns (marked': bool, clears': bool, ww': bool)
      requires h !in s0.stuck && h in s0.heap && s0.heap[h].Table? && s0.heap[h].mode.Ephemeron? && i < |Nodes(heap, h)|
      requires EphWalked(s0, View(), h, i, marked, hasclears, hasww) && Traversing(s0, View(), h, i)
      modifies `heap, `color, `gray, `loc
      ensures EphWalked(s0, View(), h, i + 1, marked', clears', ww') && |Nodes(heap, h)| == |Nodes(old(heap), h)|
      ensures Whites(color) <= old(Whites(color))
      ensures Traversing(s0, View(), h, i + 1)
    {
      hide MarkInv, Traversing, EphWalked;
      ghost var s := View();
      Walking(s0, s, h, i);
      SameStrings(s0, s, h, i);
      var n := heap[h].nodes[i];
      marked', clears', ww' := false, false, false;
      if n.val.Nil? {
        RemoveEntry(h, i, s0);
      } else {
        marked', clears', ww' := EphemeronLive(h, i, s0, n);
        TraversingNext(s0, View(), h, i);
      }
      EphWalkedStep(s0, s, View(), h, i, marked, hasclears, hasww, marked', clears', ww');
      marked', clears', ww' := marked || marked', hasclears || clears', hasww || ww';
    }

    // The array part of an ephemeron table is strong.
    method EphemeronArray(h: Ref, ghost s0: St) returns (marked: bool)
      requires h !in stuck && h in heap && heap[h].Table? && heap[h].mode.Ephemeron? && s0 == View() && Traversing(s0, s0, h, 0)
      modifies `color, `gray, `loc
      ensures NoneIn(Whites(color), ArrayOf(heap, h)) && Traversing(s0, View(), h, 0)
      ensures if marked then Whites(color) != Whites(s0.color) else Whites(color) == Whites(s0.color) && gray == s0.gray
    {
      hide MarkInv, Traversing, ObjBound, NoneIn;
      Walking(s0, s0, h, 0);
      var arr := heap[h].arr;
      marked := false;
      assert NoneIn(Whites(color), arr[..0]) by { NoneInEmpty(Whites(color), arr); }
      for i := 0 to |arr|
        invariant NoneIn(Whites(color), arr[..i]) && Whites(color) <= Whites(s0.color)
        invariant if marked then Whites(color) != Whites(s0.color) else Whites(color) == Whites(s0.color) && gray == s0.gray
        invariant Traversing(s0, View(), h, 0)
      {
        ArrayBound(s0, h, i);
        Walking(s0, View(), h, 0);
        ghost var W := Whites(color);
        if !IsMarked(color, arr[i]) {
          marked := true;
          MarkIn(arr[i], h, s0, 0);
        }
        NoneInStep(W, Whites(color), arr, i);
      }
      assert arr[..|arr|] == arr;
    }

    method WalkEphemeron(h: Ref, ghost s0: St, m: bool) returns (marked: bool, hasclears: bool, hasww: bool)
      requires h !in s0.stuck && h in s0.heap && s0.heap[h].Table? && s0.heap[h].mode.Ephemeron? && h in heap && heap[h].Table?
      requires EphWalked(s0, View(), h, 0, m, false, false) && Traversing(s0, View(), h, 0)
      modifies `heap, `color, `gray, `loc
      ensures EphWalked(s0, View(), h, |Nodes(heap, h)|, marked, hasclears, hasww)
      ensures Whites(color) <= old(Whites(color))
      ensures Traversing(s0, View(), h, |Nodes(heap, h)|)
    {
      hide MarkInv, Traversing, EphWalked;
      marked, hasclears, hasww := m, false, false;
      ghost var n := |Nodes(heap, h)|;
      for i := 0 to |heap[h].nodes|
        invariant EphWalked(s0, View(), h, i, marked, hasclears, hasww) && |Nodes(heap, h)| == n
        invariant Whites(color) <= old(Whites(color))
        invariant Traversing(s0, View(), h, i)
      {
        marked, hasclears, hasww := EphemeronEntry(h, i, s0, marked, hasclears, hasww);
      }
    }

    // Both loops over an ephemeron table; l is the list it has to go to.
    method WalkEphemeronTable(h: Ref) returns (marked: bool, l: Loc)
      requires h !in stuck && h in bound && h in heap && heap[h].Table? && heap[h].mode.Ephemeron?
      requires h in color && color[h].Gray? && h in loc && loc[h] == NoList && !OptIn(Whites(color), heap[h].meta)
      requires MarkInv(View(), {h})
      modifies `heap, `color, `gray, `loc
      ensures marked ==> Whites(color) != old(Whites(color))
      ensures !marked ==> OnlyStrings(old(heap), old(Whites(color)), Whites(color)) && gray == old(gray)
      ensures !marked ==> EphClosedTo(old(heap), Whites(color), Nodes(heap, h), |Nodes(heap, h)|)
      ensures h in heap && heap[h].Table? && heap[h].mode.Ephemeron? && l in {NoList, EphL, ClearL} && GrayDone(Whites(color), l, heap[h])
      ensures MarkInv(View(), {h}) && Progress(old(View()), View()) && Unmoved(old(View()), View(), h)
    {
      hide MarkInv, Traversing, EphWalked, Progress, NoneIn, GrayDone, EphClosedTo, OnlyStrings, Unmoved;
      ghost var s0 := View();
      TraversingStart(s0, h);
      marked := EphemeronArray(h, s0);
      EphWalkedStart(s0, View(), h, marked);
      ghost var W := Whites(color);
      var hasclears, hasww;
      marked, hasclears, hasww := WalkEphemeron(h, s0, marked);
      ghost var n := |Nodes(heap, h)|;
      Walking(s0, View(), h, n);
      NoneInMono(W, Whites(color), heap[h].arr);
      TraversingStop(s0, View(), h, n);
      EphWalkedStop(s0, View(), h, n, marked, hasclears, hasww);
      l := if hasww then EphL else if hasclears then ClearL else NoList;
    }

    // Returns true iff an object was marked, not counting strings found as keys.
    method TraverseEphemeron(h: Ref) returns (marked: bool)
      requires TraversalPhase() && h !in stuck && h in bound && h in heap && heap[h].Table? && heap[h].mode.Ephemeron?
      requires h in color && color[h].Gray? && h in loc && loc[h] == NoList && !OptIn(Whites(color), heap[h].meta)
      requires MarkInv(View(), {h})
      modifies `heap, `color, `gray, `loc, `grayagain, `again, `weak, `ephemeron, `allweak
      ensures TraversalPhase() && (Whites(color) == old(Whites(color)) ==> gray == old(gray))
      ensures marked ==> Whites(color) != old(Whites(color))
      ensures !marked ==> OnlyStrings(old(heap), old(Whites(color)), Whites(color)) && gray == old(gray)
      ensures !marked ==> EphClosedTo(old(heap), Whites(color), Nodes(heap, h), |Nodes(heap, h)|)
      ensures ephemeron == old(ephemeron) || ephemeron == [h] + old(ephemeron)
      ensures MarkInv(View(), {}) && Progress(old(View()), View())
    {
      hide MarkInv, Progress, GrayDone, EphClosedTo, OnlyStrings;
      ghost var s0 := View();
      var l;
      marked, l := WalkEphemeronTable(h);
      ProgressWhites(s0, View());
      LinkWeakTable(h, l, s0);
    }

    // ------------------------------------------------------- propagating gray objects

    method TraverseTable(h: Ref)
      requires TraversalPhase() && h !in stuck && h in bound && h in heap && heap[h].Table?
      requires h in color && color[h].Black? && h in loc && loc[h] == NoList
      requires MarkInv(View(), {h})
      modifies `heap, `color, `gray, `loc, `grayagain, `again, `weak, `ephemeron, `allweak
      ensures old(heap[h]).mode.AllWeak? ==> allweak == [h] + old(allweak)
      ensures TraversalPhase() && (Whites(color) == old(Whites(color)) ==> gray == old(gray))
      ensures MarkInv(View(), {}) && Progress(old(View()), View())
    {
      hide MarkInv, Progress;
      ghost var s0 := View();
      MarkTableMeta(h);
      ghost var s1 := View();
      TraverseEntries(h);
      ProgressTransitive(s0, s1, View());
      ProgressWhites(s0, s1);
      ProgressWhites(s1, View());
    }

    method MarkTableMeta(h: Ref)
      requires TraversalPhase() && h !in stuck && h in bound && h in heap && heap[h].Table?
      requires h in color && color[h].Black? && h in loc && loc[h] == NoList
      requires MarkInv(View(), {h})
      modifies `color, `gray, `loc
      ensures TraversalPhase() && (Whites(color) == old(Whites(color)) ==> gray == old(gray))
      ensures h in color && color[h].Black? && h in loc && loc[h] == NoList && !OptIn(Whites(color), MetaOf(heap, h))
      ensures MarkInv(View(), {h}) && Progress(old(View()), View())
    {
      hide MarkInv, Progress, Marking;
      ghost var s0 := View();
      ChildBound(s0, {h}, h);
      MarkOpt(heap[h].meta, h);
      MarkingKeeps(s0, View(), h);
      MarkingProgress(s0, View());
      MarkingUnmoved(s0, View(), h);
    }

    // The entries of a table, as its mode asks.
    method TraverseEntries(h: Ref)
      requires TraversalPhase() && h !in stuck && h in bound && h in heap && heap[h].Table?
      requires h in color && color[h].Black? && h in loc && loc[h] == NoList && !OptIn(Whites(color), heap[h].meta)
      requires MarkInv(View(), {h})
      modifies `heap, `color, `gray, `loc, `grayagain, `again, `weak, `ephemeron, `allweak
      ensures old(heap[h]).mode.AllWeak? ==> allweak == [h] + old(allweak)
      ensures TraversalPhase() && (Whites(color) == old(Whites(color)) ==> gray == old(gray))
      ensures MarkInv(View(), {}) && Progress(old(View()), View())
    {
      hide MarkInv, Progress, BlackOk;
      if heap[h].mode.Strong? {
        TraverseStrongTable(h);
        FinishBlack(View(), h);
      } else {
        TraverseWeakTable(h);
      }
    }

    // A weak table is kept gray.
    method TraverseWeakTable(h: Ref)
      requires TraversalPhase() && h !in stuck && h in bound && h in heap && heap[h].Table? && !heap[h].mode.Strong?
      requires h in color && color[h].Black? && h in loc && loc[h] == NoList && !OptIn(Whites(color), heap[h].meta)
      requires MarkInv(View(), {h})
      modifies `heap, `color, `gray, `loc, `grayagain, `again, `weak, `ephemeron, `allweak
      ensures old(heap[h]).mode.AllWeak? ==> allweak == [h] + old(allweak)
      ensures TraversalPhase() && (Whites(color) == old(Whites(color)) ==> gray == old(gray))
      ensures MarkInv(View(), {}) && Progress(old(View()), View())
    {
      hide MarkInv, Progress;
      ghost var s0 := View();
      assert {} + {h} == {h};
      Black2GrayInv(s0, h, {});
      color := color[h := Gray];
      ghost var s1 := View();
      GrayedProgress(s0, s1, h);
      match heap[h].mode {
        case WeakValues =>
          TraverseWeakValue(h);
        case Ephemeron =>
          var _ := TraverseEphemeron(h);
        case AllWeak =>
          LinkStep(s1, h, AllWeakL);
          LinkWeakList(h, AllWeakL);
      }
      ProgressTransitive(s0, s1, View());
      ProgressWhites(s1, View());
    }

    // markvalue during the traversal of h.
    method MarkDuring(v: Value, ghost h: Ref, ghost s0: St)
      requires InB(bound, v)
      requires During(s0, View(), h)
      modifies `color, `gray, `loc
      ensures During(s0, View(), h) && Marking(old(View()), View()) && !In(Whites(color), v)
    {
      hide MarkInv, During, Marking, Progress;
      ghost var s := View();
      DuringStop(s0, s, h);
      MarkValue(v, h);
      DuringMark(s0, s, View(), h);
    }

    // The thread that holds the value of an open upvalue will mark it.
    method TouchUpval(h: Ref, i: nat, id: UvId, ghost s0: St)
      requires h in heap && heap[h].LClosure? && i < |heap[h].upvals| && heap[h].upvals[i] == Some(id)
      requires id in upv && upv[id].Open? && !remarked && InB(bound, UvValue(heap, upv, id))
      requires UpvalsBlackTo(View(), h, UpvalIds(heap, h), i) && During(s0, View(), h)
      modifies `upv
      ensures UpvalsBlackTo(View(), h, UpvalIds(heap, h), i + 1) && During(s0, View(), h)
    {
      hide MarkInv, During, UpvalsBlackTo;
      UpvalsBlackTouch(View(), h, heap[h].upvals, i);
      TrimReflexive(heap);
      TouchFlags(heap, upv, id, bound, Whites(color));
      DuringTrim(s0, View(), h, heap, upv[id := upv[id].(touched := true)]);
      upv := upv[id := upv[id].(touched := true)];
    }

    method MarkUpval(h: Ref, i: nat, v: Value, ghost s0: St)
      requires h in heap && heap[h].LClosure? && i < |heap[h].upvals| && InB(bound, v)
      requires heap[h].upvals[i].Some? ==> v == UvValue(heap, upv, heap[h].upvals[i].value)
      requires heap[h].upvals[i].Some? ==> heap[h].upvals[i].value in upv && (upv[heap[h].upvals[i].value].Open? ==> remarked)
      requires UpvalsBlackTo(View(), h, UpvalIds(heap, h), i) && During(s0, View(), h)
      modifies `color, `gray, `loc
      ensures Whites(color) <= old(Whites(color))
      ensures UpvalsBlackTo(View(), h, UpvalIds(heap, h), i + 1) && During(s0, View(), h)
    {
      hide MarkInv, During, Marking, Progress, UpvalsBlackTo, LocsOk;
      ghost var s := View();
      DuringStop(s0, s, h);
      MarkDuring(v, h, s0);
      MarkingKeeps(s, View(), h);
      MarkInvLocs(s, {h});
      UpvalsBlackMark(s, View(), h, heap[h].upvals, i);
    }

    // An open upvalue is only flagged, except in the atomic phase, where the thread
    // that holds its value may not be traversed again.
    method TraverseUpval(h: Ref, i: nat, ghost s0: St)
      requires h in heap && heap[h].LClosure? && i < |heap[h].upvals| && TraversalPhase() && h in bound && h !in stuck
      requires UpvalsBlackTo(View(), h, UpvalIds(heap, h), i) && During(s0, View(), h)
      modifies `upv, `color, `gray, `loc
      ensures TraversalPhase() && Whites(color) <= old(Whites(color))
      ensures UpvalsBlackTo(View(), h, UpvalIds(heap, h), i + 1) && During(s0, View(), h)
    {
      hide MarkInv, During, UpvalsBlackTo;
      DuringStop(s0, View(), h);
      UpvalOf(View(), h, i);
      if heap[h].upvals[i].Some? {
        var id := heap[h].upvals[i].value;
        if upv[id].Open? && gcstate != InsideAtomic {
          TouchUpval(h, i, id, s0);
        } else {
          MarkUpval(h, i, UvValue(heap, upv, id), s0);
        }
      } else {
        UpvalsBlackSkip(View(), h, heap[h].upvals, i);
      }
    }

    method TraverseLclosure(h: Ref)
      requires TraversalPhase() && h !in stuck && h in bound && h in heap && heap[h].LClosure?
      requires h in color && color[h].Black? && h in loc && loc[h] == NoList
      requires MarkInv(View(), {h})
      modifies `upv, `color, `gray, `loc
      ensures TraversalPhase() && (Whites(color) == old(Whites(color)) ==> gray == old(gray))
      ensures MarkInv(View(), {}) && Progress(old(View()), View())
    {
      hide MarkInv, During, Marking, Progress, UpvalsBlackTo, BlackOk;
      ghost var s0 := View();
      ChildBound(s0, {h}, h);
      DuringStart(s0, h);
      MarkOpt(heap[h].proto, h);
      DuringMark(s0, s0, View(), h);
      ghost var W := Whites(color);
      TraverseUpvals(h, s0);
      DuringStop(s0, View(), h);
      UpvalsBlackStop(View(), h);
      FinishBlack(View(), h);
    }

    method TraverseUpvals(h: Ref, ghost s0: St)
      requires h in heap && heap[h].LClosure? && TraversalPhase() && h in bound && h !in stuck && During(s0, View(), h)
      modifies `upv, `color, `gray, `loc
      ensures TraversalPhase() && Whites(color) <= old(Whites(color))
      ensures UpvalsBlackTo(View(), h, UpvalIds(heap, h), |UpvalIds(heap, h)|) && During(s0, View(), h)
    {
      hide MarkInv, During, UpvalsBlackTo;
      UpvalsBlackStart(View(), h, heap[h].upvals);
      for i := 0 to |heap[h].upvals|
        invariant TraversalPhase() && Whites(color) <= old(Whites(color))
        invariant UpvalsBlackTo(View(), h, UpvalIds(heap, h), i) && During(s0, View(), h)
      {
        TraverseUpval(h, i, s0);
      }
    }

    method TraverseCclosure(h: Ref)
      requires h !in stuck && h in bound && h in heap && heap[h].CClosure?
      requires h in color && color[h].Black? && h in loc && loc[h] == NoList
      requires MarkInv(View(), {h})
      modifies `color, `gray, `loc
      ensures Whites(color) == old(Whites(color)) ==> gray == old(gray)
      ensures MarkInv(View(), {}) && Progress(old(View()), View())
    {
      hide MarkInv, During, Marking, Progress;
      ghost var s0 := View();
      ChildBound(s0, {h}, h);
      DuringStart(s0, h);
      MarkAll(heap[h].upvalue, h);
      DuringMark(s0, s0, View(), h);
      DuringStop(s0, View(), h);
      FinishBlack(View(), h);
    }

    // The cache is a weak reference: it is dropped if it is not marked yet.
    method DropCache(h: Ref)
      requires h in heap && heap[h].Proto? && MarkInv(View(), {h})
      modifies `heap
      ensures h in heap && heap[h].Proto? && heap[h].k == old(heap[h].k) && heap[h].parts == old(heap[h].parts)
      ensures !OptIn(Whites(color), heap[h].cache) && During(old(View()), View(), h)
    {
      hide MarkInv, During, TouchKeeps;
      DuringStart(View(), h);
      if heap[h].cache.Some? && IsWhite(color, heap[h].cache.value) {
        ghost var h' := heap[h := heap[h].(cache := None)];
        assert Trim(heap, h');
        TouchReflexive(upv, Rule(View()));
        DuringTrim(View(), View(), h, h', upv);
        heap := heap[h := heap[h].(cache := None)];
      }
    }

    method TraverseProto(h: Ref)
      requires h !in stuck && h in bound && h in heap && heap[h].Proto?
      requires h in color && color[h].Black? && h in loc && loc[h] == NoList
      requires MarkInv(View(), {h})
      modifies `heap, `color, `gray, `loc
      ensures Whites(color) == old(Whites(color)) ==> gray == old(gray)
      ensures MarkInv(View(), {}) && Progress(old(View()), View())
    {
      hide MarkInv, During, Marking, Progress, ObjBound;
      ghost var s0 := View();
      DropCache(h);
      ghost var s1 := View();
      DuringStop(s0, s1, h);
      MarkParts(h, s0);
      DuringStop(s0, View(), h);
      FinishBlack(View(), h);
    }

    // The constants of a prototype, names and nested prototypes.
    method MarkParts(h: Ref, ghost s0: St)
      requires h !in stuck && h in bound && h in heap && heap[h].Proto? && !OptIn(Whites(color), heap[h].cache) && During(s0, View(), h)
      modifies `color, `gray, `loc
      ensures Clear(heap, upv, Whites(color), heap[h]) && During(s0, View(), h)
    {
      hide MarkInv, During, Marking, Progress;
      ghost var s1 := View();
      DuringStop(s0, s1, h);
      ChildBound(s1, {h}, h);
      MarkAllOpt(heap[h].parts, h);
      ghost var s2 := View();
      DuringMark(s0, s1, s2, h);
      MarkAll(heap[h].k, h);
      DuringMark(s0, s2, View(), h);
      MarkingKeeps(s1, s2, h);
      MarkingKeeps(s2, View(), h);
    }

    // Only live slots are marked; in the atomic phase the others are cleared, so that
    // no stale reference survives the sweep.
    method ClearStack(th: Ref, ghost s0: St)
      requires th in heap && heap[th].Thread? && heap[th].top <= |heap[th].stack|
      requires NoneIn(Whites(color), heap[th].stack[..heap[th].top]) && During(s0, View(), th)
      modifies `heap
      ensures th in heap && heap[th].Thread? && heap[th].openupval == old(heap[th].openupval)
      ensures NoneIn(Whites(color), heap[th].stack) && During(s0, View(), th)
    {
      hide MarkInv, During, TouchKeeps;
      var t := heap[th];
      var stack := t.stack[..t.top] + seq(|t.stack| - t.top, _ => Nil);
      assert forall i :: 0 <= i < t.top ==> stack[i] == t.stack[..t.top][i];
      assert ObjTrim(t, t.(stack := stack));
      TouchReflexive(upv, Rule(View()));
      assert Trim(heap, heap[th := t.(stack := stack)]);
      DuringTrim(s0, View(), th, heap[th := t.(stack := stack)], upv);
      heap := heap[th := t.(stack := stack)];
    }

    method TraverseThread(th: Ref)
      requires TraversalPhase() && th !in stuck && th in bound && th in heap && heap[th].Thread?
      requires th in color && color[th].Gray? && th in loc && loc[th] == (if gcstate == InsideAtomic then NoList else AgainL)
      requires MarkInv(View(), {th})
      modifies `heap, `color, `gray, `loc, `twups
      ensures TraversalPhase() && (Whites(color) == old(Whites(color)) ==> gray == old(gray))
      ensures MarkInv(View(), {}) && Progress(old(View()), View())
    {
      hide MarkInv, During, Marking, Progress;
      ghost var s0 := View();
      ThreadBound(s0, th);
      DuringStart(s0, th);
      MarkAll(heap[th].stack[..heap[th].top], th);
      DuringMark(s0, s0, View(), th);
      DuringStop(s0, View(), th);
      if gcstate == InsideAtomic {
        FinishStack(th, s0);
      } else {
        FinishPending(View(), th);
      }
    }

    // In the atomic phase the thread will not be visited again.
    method FinishStack(th: Ref, ghost s0: St)
      requires TraversalPhase() && gcstate == InsideAtomic && th in heap && heap[th].Thread? && th in color && color[th].Gray?
      requires heap[th].top <= |heap[th].stack| && NoneIn(Whites(color), heap[th].stack[..heap[th].top]) && During(s0, View(), th)
      modifies `heap, `twups
      ensures MarkInv(View(), {}) && Progress(s0, View())
    {
      hide MarkInv, During, Progress;
      ClearStack(th, s0);
      RelinkThread(th, s0);
      DuringStop(s0, View(), th);
      FinishThread(View(), th);
    }

    // 'remarkupvals' may have removed the thread from the list of threads with upvalues.
    method RelinkThread(th: Ref, ghost s0: St)
      requires th in heap && heap[th].Thread? && th in color && color[th].Gray? && remarked
      requires During(s0, View(), th)
      modifies `twups
      ensures th in twups || OpenUpvals(heap, th) == []
      ensures During(s0, View(), th)
    {
      hide MarkInv, During, Progress, Unmoved;
      if th !in twups && heap[th].openupval != [] {
        RelinkDuring(s0, View(), th);
        twups := [th] + twups;
      }
    }

    // ------------------------------------------------------------------ propagation

    // A thread is linked in 'grayagain' and stays gray. (In the atomic phase that
    // list is not read any more.)
    method PropagateThread(th: Ref)
      requires TraversalPhase() && th !in stuck && th in bound && th in heap && heap[th].Thread?
      requires th in color && color[th].Black? && th in loc && loc[th] == NoList
      requires MarkInv(View(), {th})
      modifies `heap, `color, `gray, `loc, `twups, `grayagain, `again
      ensures TraversalPhase() && (Whites(color) == old(Whites(color)) ==> gray == old(gray))
      ensures MarkInv(View(), {}) && Progress(old(View()), View())
    {
      hide MarkInv, Progress;
      ghost var s0 := View();
      GrayThread(th);
      ghost var s2 := View();
      TraverseThread(th);
      ProgressTransitive(s0, s2, View());
      ProgressWhites(s2, View());
    }

    // black2gray, and the link in 'grayagain'.
    method GrayThread(th: Ref)
      requires TraversalPhase() && th !in stuck && th in bound && th in heap && heap[th].Thread?
      requires th in color && color[th].Black? && th in loc && loc[th] == NoList
      requires MarkInv(View(), {th})
      modifies `color, `loc, `grayagain, `again
      ensures TraversalPhase() && th in color && color[th].Gray? && th in loc && loc[th] == (if gcstate == InsideAtomic then NoList else AgainL)
      ensures Whites(color) == old(Whites(color))
      ensures MarkInv(View(), {th}) && Progress(old(View()), View())
    {
      hide MarkInv, Progress;
      ghost var s0 := View();
      assert {} + {th} == {th};
      Black2GrayInv(s0, th, {});
      color := color[th := Gray];
      ghost var s1 := View();
      GrayedProgress(s0, s1, th);
      if gcstate == InsideAtomic {
        grayagain := [th] + grayagain;
      } else {
        ThreadAgain(th);
        ProgressTransitive(s0, s1, View());
      }
    }

    method ThreadAgain(th: Ref)
      requires TraversalPhase() && gcstate != InsideAtomic && th !in stuck && th in heap && heap[th].Thread?
      requires th in color && color[th].Gray? && th in loc && loc[th] == NoList
      requires MarkInv(View(), {th})
      modifies `loc, `grayagain, `again
      ensures TraversalPhase() && th in loc && loc[th] == AgainL
      ensures MarkInv(View(), {th}) && Progress(old(View()), View())
    {
      hide MarkInv, Progress;
      ghost var s1 := View();
      LinkGrayAgain(th);
      LinkStep(s1, th, AgainL);
      SkipMore(View(), {}, th);
      assert {} + {th} == {th};
    }

    // Takes the first object off the gray list and makes it black.
    method TakeGray() returns (o: Ref)
      requires gray != [] && MarkInv(View(), {})
      modifies `color, `gray, `loc
      ensures gray == old(gray)[1..] && Whites(color) == old(Whites(color)) && o == old(gray)[0]
      ensures o in bound && o in heap && o in color && color[o].Black? && o in loc && loc[o] == NoList
      ensures !heap[o].Str? && !heap[o].Udata? && o !in stuck
      ensures MarkInv(View(), {o}) && Progress(old(View()), View())
    {
      hide MarkInv, Progress, PopGray;
      ghost var s0 := View();
      PopFacts(s0);
      o := gray[0];
      PopGrayList();
    }

    method PopGrayList()
      requires gray != [] && gray[0] in loc
      modifies `color, `gray, `loc
      ensures View() == PopGray(old(View()))
    {
      color := color[gray[0] := Black];
      loc := loc[gray[0] := NoList];
      gray := gray[1..];
    }

    // propagatemark: the first gray object is traversed. It turns black, unless it is a
    // thread or a weak table.
    method PropagateMark()
      requires gray != [] && TraversalPhase()
      requires MarkInv(View(), {})
      modifies `heap, `upv, `color, `gray, `loc, `grayagain, `again, `weak, `ephemeron, `allweak, `twups
      ensures TraversalPhase()
      ensures Whites(color) == old(Whites(color)) ==> gray == old(gray)[1..]
      ensures var o := old(gray)[0];
        o in old(heap) && old(heap)[o].Table? && old(heap)[o].mode.AllWeak? ==> allweak == [o] + old(allweak)
      ensures MarkInv(View(), {}) && Progress(old(View()), View())
    {
      hide MarkInv, Progress;
      var o := TakeGray();
      ghost var s1 := View();
      match heap[o] {
        case Table(_, _, _, _) => TraverseTable(o);
        case LClosure(_, _) => TraverseLclosure(o);
        case CClosure(_) => TraverseCclosure(o);
        case Thread(_, _, _) => PropagateThread(o);
        case Proto(_, _, _) => TraverseProto(o);
      }
      ProgressTransitive(old(View()), s1, View());
      ProgressWhites(s1, View());
    }

    method PropagateAll()
      requires TraversalPhase()
      requires MarkInv(View(), {})
      modifies `heap, `upv, `color, `gray, `loc, `grayagain, `again, `weak, `ephemeron, `allweak, `twups
      ensures TraversalPhase() && gray == []
      ensures MarkInv(View(), {}) && Progress(old(View()), View())
    {
      hide MarkInv, Progress;
      ProgressReflexive(View());
      while gray != []
        invariant TraversalPhase()
        invariant MarkInv(View(), {}) && Progress(old(View()), View())
        decreases WhiteSet(color), |gray|
      {
        ghost var s := View();
        PropagateMark();
        ProgressTransitive(old(View()), s, View());
        ProgressWhites(s, View());
        WhiteSetMeasure(s.color, color);
      }
    }
  }
}
