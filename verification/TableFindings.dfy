// A table loses an entry when the memory for its nodes cannot be allocated (ltable.c).

module TableFindings {
  import opened TableSizes
  import opened TableNodes
  import opened Tables

  // A single key at index 2 stays in the hash part.
  lemma SizeForTwo(size: nat)
    ensures Optimal({2}, size) <==> size == 0
  {
    forall n: nat ensures !Dense({2}, n) {
      assert UpTo({2}, 0) == {} && UpTo({2}, 1) == {};
      SubsetSize(UpTo({2}, n), {2});
    }
  }

  // Keys at indices 1 and 2 go to the array part.
  lemma SizeForBoth(size: nat)
    ensures Optimal({1, 2}, size) <==> size == 2
  {
    assert Pow2(0) == 1 && Pow2(1) == 2 && Pow2(2) == 4;
    assert UpTo({1, 2}, Pow2(1)) == {1, 2};
    assert Dense({1, 2}, Pow2(1));
    forall i: nat | Dense({1, 2}, Pow2(i)) ensures Pow2(i) <= 2 {
      SubsetSize(UpTo({1, 2}, Pow2(i)), {1, 2});
      if i >= 2 { Pow2Mono(2, i); }
    }
  }

  // Room for one node or two, and none to be had.
  lemma FewNodes(n: nat)
    requires 1 <= n <= 2
    ensures NodesFit(n, 2) && !NodesFit(n, 0) && forall size :: NodesFor(n, size) ==> size == n
  {
    assert Pow2(0) == 1 && Pow2(1) == 2;
    assert IsCeilLog2(n, n - 1);
    CeilLog2Only(n, n - 1);
  }

  const TWO := KInt(2)
  const NAME := KStr(0)
  const ONE := KInt(1)

  lemma FirstKey(m: Map)
    requires m == map[]
    ensures |IntOf(m.Keys + {TWO})| == 1 && Fits(m, TWO, 0, Memory(0, 2))
    ensures forall size :: Optimal(IntOf(m.Keys + {TWO}), size) ==> size == 0 && HashSize(m, TWO, size) == 1
  {
    hide Optimal, NodesFit;
    assert m.Keys + {TWO} == {TWO} && IntOf({TWO}) == {2};
    forall size ensures Optimal({2}, size) <==> size == 0 { SizeForTwo(size); }
    assert (set q | q in m.Keys + {TWO} && !InArray(q, 0)) == {TWO};
    FewNodes(1);
    FitsAt(m, TWO, 0, 0, Memory(0, 2));
  }

  lemma SecondKey(m: Map)
    requires m.Keys == {TWO}
    ensures |IntOf(m.Keys + {NAME})| == 1 && Fits(m, NAME, 0, Memory(0, 2))
    ensures forall size :: Optimal(IntOf(m.Keys + {NAME}), size) ==> size == 0 && HashSize(m, NAME, size) == 2
  {
    hide Optimal, NodesFit;
    assert m.Keys + {NAME} == {TWO, NAME} && IntOf({TWO, NAME}) == {2};
    forall size ensures Optimal({2}, size) <==> size == 0 { SizeForTwo(size); }
    assert (set q | q in m.Keys + {NAME} && !InArray(q, 0)) == {TWO, NAME};
    FewNodes(2);
    FitsAt(m, NAME, 0, 0, Memory(0, 2));
  }

  lemma ThirdKey(m: Map, arr: seq<Value>)
    requires m.Keys == {TWO, NAME} && arr == []
    ensures |IntOf(m.Keys + {ONE})| == 2 && !Fits(m, ONE, 0, Memory(2, 0)) && Hidden(arr, m, ONE)
    ensures forall size :: Optimal(IntOf(m.Keys + {ONE}), size) ==> size == 2
  {
    hide Optimal, NodesFit;
    assert m.Keys + {ONE} == {TWO, NAME, ONE} && IntOf({TWO, NAME, ONE}) == {1, 2};
    forall size ensures Optimal({1, 2}, size) <==> size == 2 { SizeForBoth(size); }
    assert (set q | q in m.Keys + {ONE} && !InArray(q, 2)) == {NAME};
    FewNodes(1);
    FitsAt(m, ONE, 2, 0, Memory(2, 0));
    assert InArray(TWO, 2);
  }

  lemma OneNode(t: Table)
    requires t.Valid() && t.arr == [] && |t.node| == 1 && t.m.Keys == {TWO}
    ensures t.Full(NAME)
  {
    hide NodesOk;
    assert Stored(t.arr, t.node, TWO, t.m[TWO]);
  }

  lemma TwoNodes(t: Table)
    requires t.Valid() && t.arr == [] && |t.node| == 2 && t.m.Keys == {TWO, NAME}
    ensures t.Full(ONE)
  {
    hide NodesOk;
    assert Stored(t.arr, t.node, TWO, t.m[TWO]) && Stored(t.arr, t.node, NAME, t.m[NAME]);
    var i :| 0 <= i < 2 && t.node[i].key == TWO && t.node[i].val == t.m[TWO];
    var j :| 0 <= j < 2 && t.node[j].key == NAME && t.node[j].val == t.m[NAME];
  }

  lemma Empty(t: Table)
    requires t.Valid() && t.arr == [] && t.dummy && t.m == map[]
    ensures t.Full(TWO)
  {}

  // t[2] and t["name"] are set; then the nodes for t[1] cannot be allocated, and t[2] is
  // nil.
  method LostKey(h: Hashes) returns (t: Table, v: Value)
    ensures fresh(t) && t.m == map[TWO := Val(1), NAME := Val(2)] && !t.Valid() && t.NodesValid() && v == VNil
    ensures exists c :: t.CellFor(TWO, c) && v == t.At(c)
  {
    hide NodesOk, Content, Optimal, Fits, IntOf, NodesFor, HashSize, Hidden;
    t := new Table(h);
    FirstKey(t.m);
    Empty(t);
    var st := t.Put(TWO, Val(1), Memory(0, 2));
    FewNodes(1);
    assert t.m == map[TWO := Val(1)];
    OneNode(t);
    SecondKey(t.m);
    st := t.Put(NAME, Val(2), Memory(0, 2));
    FewNodes(2);
    assert t.m == map[TWO := Val(1), NAME := Val(2)];
    TwoNodes(t);
    ThirdKey(t.m, t.arr);
    ghost var before := t.arr;
    st := t.Put(ONE, Val(3), Memory(2, 0));
    var c := t.Find(TWO);
    FailedValue(t, before, TWO, c);
    v := t.At(c);
  }
}
