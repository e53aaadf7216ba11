// The hash part of a table (ltable.c): chains of nodes threaded by relative offsets, and
// what inserting a key does to them.

module TableNodes {
  // A float: not a number, one with an integer value that fits, or another one.
  datatype Float = NaN | Whole(n: int) | Fraction(id: int)

  datatype Key = KNil | KInt(n: int) | KFlt(x: Float) | KStr(id: int) | KBool(b: bool) | KPtr(p: int)

  datatype Value = VNil | Val(v: int)

  datatype Node = Node(key: Key, val: Value, next: int)

  // Hash values of keys that are not integers.
  type Hashes = Key -> nat

  // mainposition: strings and booleans use the low bits of the hash, other keys a
  // modulus by (size - 1) | 1.
  function MainPosition(h: Hashes, size: nat, k: Key): (p: nat)
    requires size > 0
    ensures p < size
  {
    match k
    case KInt(n) => n % size
    case KStr(_) => h(k) % size
    case KBool(_) => h(k) % size
    case _ => h(k) % (if size == 1 then 1 else size - 1)
  }

  // Nodes with their chains: the nodes of a chain have the same number in 'chain', and
  // 'rank' goes down along it.
  datatype Chains = Chains(nodes: seq<Node>, chain: seq<int>, rank: seq<nat>)

  function Succ(nodes: seq<Node>, i: nat): int
    requires i < |nodes|
  {
    i + nodes[i].next
  }

  predicate Sized(c: Chains) {
    |c.nodes| > 0 && |c.chain| == |c.nodes| && |c.rank| == |c.nodes|
  }

  ghost predicate Steps(c: Chains)
    requires Sized(c)
  {
    forall i :: 0 <= i < |c.nodes| && c.nodes[i].next != 0 ==> StepOk(c, i)
  }

  predicate StepOk(c: Chains, i: nat)
    requires Sized(c) && i < |c.nodes|
  {
    var j := Succ(c.nodes, i);
    0 <= j < |c.nodes| && c.chain[j] == c.chain[i] && c.rank[j] < c.rank[i] && c.nodes[j].key != KNil
  }

  // Chains are linear: from any node, the next one is the one of next lower rank.
  ghost predicate Linear(c: Chains)
    requires Sized(c)
  {
    forall i, j :: 0 <= i < |c.nodes| && 0 <= j < |c.nodes| ==> PairOk(c, i, j)
  }

  predicate PairOk(c: Chains, i: nat, j: nat)
    requires Sized(c) && i < |c.nodes| && j < |c.nodes|
  {
    i != j && c.chain[i] == c.chain[j] ==>
      && c.rank[i] != c.rank[j]
      && (c.rank[i] > c.rank[j] ==> c.nodes[i].next != 0 && StepOk(c, i) && c.rank[Succ(c.nodes, i)] >= c.rank[j])
  }

  // Free nodes are in no chain with others.
  ghost predicate FreeAlone(c: Chains)
    requires Sized(c)
  {
    forall i, j :: 0 <= i < |c.nodes| && 0 <= j < |c.nodes| && c.nodes[i].key == KNil ==> FreeFrom(c, i, j)
  }

  predicate FreeFrom(c: Chains, i: nat, j: nat)
    requires Sized(c) && i < |c.nodes| && j < |c.nodes|
  {
    c.nodes[i] == Node(KNil, VNil, 0) && (j != i ==> c.chain[j] != c.chain[i])
  }

  ghost predicate Linked(c: Chains) {
    Sized(c) && Steps(c) && Linear(c) && FreeAlone(c)
  }

  // Node j can be reached from node i.
  predicate Reaches(c: Chains, i: nat, j: nat) {
    i < |c.chain| && j < |c.chain| && i < |c.rank| && j < |c.rank| && c.chain[i] == c.chain[j] && c.rank[i] >= c.rank[j]
  }

  // Every key is reached from its main position, whose node has a key that belongs there.
  ghost predicate Homes(h: Hashes, c: Chains)
    requires Sized(c)
  {
    forall i :: 0 <= i < |c.nodes| && c.nodes[i].key != KNil ==> Home(h, c, i)
  }

  predicate Home(h: Hashes, c: Chains, i: nat)
    requires Sized(c) && i < |c.nodes|
  {
    var m := MainPosition(h, |c.nodes|, c.nodes[i].key);
    Reaches(c, m, i) && c.nodes[m].key != KNil && MainPosition(h, |c.nodes|, c.nodes[m].key) == m
  }

  ghost predicate Distinct(nodes: seq<Node>) {
    forall i, j :: 0 <= i < j < |nodes| && nodes[i].key != KNil ==> nodes[i].key != nodes[j].key
  }

  // The structure of the hash part.
  ghost predicate NodesOk(h: Hashes, c: Chains) {
    Linked(c) && Homes(h, c) && Distinct(c.nodes)
  }

  // The chains are acyclic, and a node has at most one predecessor.
  lemma OnePredecessor(c: Chains, i: nat, j: nat)
    requires Linked(c) && i < |c.nodes| && j < |c.nodes| && c.nodes[i].next != 0 && c.nodes[j].next != 0
    requires Succ(c.nodes, i) == Succ(c.nodes, j)
    ensures i == j
  {
    assert StepOk(c, i) && StepOk(c, j) && PairOk(c, i, j) && PairOk(c, j, i);
  }

  // What comes after i in its chain comes after its successor, or is it.
  lemma NextReaches(c: Chains, i: nat, j: nat)
    requires Linked(c) && Reaches(c, i, j) && i != j && i < |c.nodes| && j < |c.nodes|
    ensures c.nodes[i].next != 0 && StepOk(c, i) && Reaches(c, Succ(c.nodes, i), j)
  {
    assert PairOk(c, i, j);
  }

  // ---------------------------------------------------------------------- fresh nodes

  function FreshNodes(size: nat): Chains {
    Chains(seq(size, i => Node(KNil, VNil, 0)), seq(size, i => i), seq(size, i => 0))
  }

  lemma FreshOk(h: Hashes, size: nat)
    requires size > 0
    ensures NodesOk(h, FreshNodes(size))
  {}

  // ------------------------------------------------------------------ inserting a key

  ghost predicate NoKey(nodes: seq<Node>, k: Key) {
    forall i :: 0 <= i < |nodes| ==> nodes[i].key != k
  }

  // The main position is free, or its value is nil: the key goes there.
  function Taken(c: Chains, mp: nat, k: Key): Chains
    requires mp < |c.nodes|
  {
    c.(nodes := c.nodes[mp := c.nodes[mp].(key := k)])
  }

  lemma TakenLinked(c: Chains, mp: nat, k: Key)
    requires Linked(c) && mp < |c.nodes| && k != KNil
    ensures Linked(Taken(c, mp, k))
  {
    var c' := Taken(c, mp, k);
    forall i | 0 <= i < |c'.nodes| && c'.nodes[i].next != 0 ensures StepOk(c', i) { assert StepOk(c, i); }
    forall i, j | 0 <= i < |c'.nodes| && 0 <= j < |c'.nodes| ensures PairOk(c', i, j) { assert PairOk(c, i, j); }
    forall i, j | 0 <= i < |c'.nodes| && 0 <= j < |c'.nodes| && c'.nodes[i].key == KNil ensures FreeFrom(c', i, j) { assert FreeFrom(c, i, j); }
  }

  lemma TakenOk(h: Hashes, c: Chains, mp: nat, k: Key)
    requires NodesOk(h, c) && mp < |c.nodes| && MainPosition(h, |c.nodes|, k) == mp && k != KNil && NoKey(c.nodes, k)
    ensures NodesOk(h, Taken(c, mp, k))
  {
    hide Steps, Linear, FreeAlone, MainPosition;
    var c' := Taken(c, mp, k);
    TakenLinked(c, mp, k);
    forall i | 0 <= i < |c'.nodes| && c'.nodes[i].key != KNil ensures Home(h, c', i) {
      if i != mp { assert Home(h, c, i); }
    }
  }

  // The node there has a right to its place: the new key goes to the free node f, next in
  // the chain.
  function Inserted(c: Chains, mp: nat, f: nat, k: Key): Chains
    requires mp < |c.nodes| && f < |c.nodes| && Sized(c)
  {
    var next := if c.nodes[mp].next != 0 then mp + c.nodes[mp].next - f else 0;
    var rank := seq(|c.rank|, i requires 0 <= i < |c.rank| => 2 * c.rank[i] + 1);
    Chains(c.nodes[f := Node(k, VNil, next)][mp := c.nodes[mp].(next := f - mp)], c.chain[f := c.chain[mp]],
           rank[f := 2 * c.rank[mp]])
  }

  // The colliding node is out of its main position: it moves to the free node f, after
  // its predecessor p, and the new key takes its place, alone in a chain.
  function Evicted(c: Chains, mp: nat, f: nat, p: nat, k: Key): Chains
    requires mp < |c.nodes| && f < |c.nodes| && p < |c.nodes| && Sized(c)
  {
    var next := if c.nodes[mp].next != 0 then c.nodes[mp].next + (mp - f) else 0;
    Chains(c.nodes[p := c.nodes[p].(next := f - p)][f := c.nodes[mp].(next := next)][mp := Node(k, VNil, 0)],
           c.chain[f := c.chain[mp]][mp := c.chain[f]], c.rank[f := c.rank[mp]])
  }

  ghost predicate MayInsert(c: Chains, mp: nat, f: nat) {
    Linked(c) && mp < |c.nodes| && f < |c.nodes| && c.nodes[mp].key != KNil && c.nodes[f].key == KNil
  }

  lemma InsertedStep(c: Chains, mp: nat, f: nat, k: Key, i: nat)
    requires MayInsert(c, mp, f) && k != KNil && i < |c.nodes| && Inserted(c, mp, f, k).nodes[i].next != 0
    ensures StepOk(Inserted(c, mp, f, k), i)
  {
    var o := if i == f then mp else i;
    if c.nodes[o].next != 0 { assert StepOk(c, o); }
    hide Linear, Steps, FreeAlone;
  }

  lemma InsertedPair(c: Chains, mp: nat, f: nat, k: Key, i: nat, j: nat)
    requires MayInsert(c, mp, f) && k != KNil && i < |c.nodes| && j < |c.nodes|
    ensures PairOk(Inserted(c, mp, f, k), i, j)
  {
    var c' := Inserted(c, mp, f, k);
    if c'.nodes[i].next != 0 { InsertedStep(c, mp, f, k, i); }
    var i0, j0 := if i == f then mp else i, if j == f then mp else j;
    assert PairOk(c, i0, j0);
    hide Linear, Steps, FreeAlone;
  }

  lemma InsertedLinked(c: Chains, mp: nat, f: nat, k: Key)
    requires MayInsert(c, mp, f) && k != KNil
    ensures Linked(Inserted(c, mp, f, k))
  {
    var c' := Inserted(c, mp, f, k);
    forall i | 0 <= i < |c'.nodes| && c'.nodes[i].next != 0 ensures StepOk(c', i) { InsertedStep(c, mp, f, k, i); }
    forall i, j | 0 <= i < |c'.nodes| && 0 <= j < |c'.nodes| ensures PairOk(c', i, j) { InsertedPair(c, mp, f, k, i, j); }
    forall i, j | 0 <= i < |c'.nodes| && 0 <= j < |c'.nodes| && c'.nodes[i].key == KNil ensures FreeFrom(c', i, j) {
      assert FreeFrom(c, i, j) && FreeFrom(c, i, mp);
    }
  }

  lemma InsertedOk(h: Hashes, c: Chains, mp: nat, f: nat, k: Key)
    requires NodesOk(h, c) && MayInsert(c, mp, f) && k != KNil
    requires MainPosition(h, |c.nodes|, k) == mp && MainPosition(h, |c.nodes|, c.nodes[mp].key) == mp && NoKey(c.nodes, k)
    ensures NodesOk(h, Inserted(c, mp, f, k))
  {
    hide Steps, Linear, FreeAlone, MainPosition;
    var c' := Inserted(c, mp, f, k);
    InsertedLinked(c, mp, f, k);
    forall i | 0 <= i < |c'.nodes| && c'.nodes[i].key != KNil ensures Home(h, c', i) {
      if i != f { assert Home(h, c, i); }
    }
  }

  ghost predicate MayEvict(c: Chains, mp: nat, f: nat, p: nat) {
    && Linked(c) && mp < |c.nodes| && f < |c.nodes| && p < |c.nodes| && c.nodes[mp].key != KNil && c.nodes[f].key == KNil
    && c.nodes[p].next != 0 && Succ(c.nodes, p) == mp
  }

  lemma EvictedStep(c: Chains, mp: nat, f: nat, p: nat, k: Key, i: nat)
    requires MayEvict(c, mp, f, p) && k != KNil && i < |c.nodes| && Evicted(c, mp, f, p, k).nodes[i].next != 0
    ensures StepOk(Evicted(c, mp, f, p, k), i)
  {
    assert StepOk(c, p) && FreeFrom(c, f, mp);
    var o := if i == f then mp else i;
    if c.nodes[o].next != 0 {
      assert StepOk(c, o);
      if Succ(c.nodes, o) == mp { OnePredecessor(c, o, p); }
    }
    hide Linear, Steps, FreeAlone;
  }

  lemma EvictedPair(c: Chains, mp: nat, f: nat, p: nat, k: Key, i: nat, j: nat)
    requires MayEvict(c, mp, f, p) && k != KNil && i < |c.nodes| && j < |c.nodes|
    ensures PairOk(Evicted(c, mp, f, p, k), i, j)
  {
    var c' := Evicted(c, mp, f, p, k);
    if c'.nodes[i].next != 0 { EvictedStep(c, mp, f, p, k, i); }
    var i0, j0 := if i == f then mp else if i == mp then f else i, if j == f then mp else if j == mp then f else j;
    assert StepOk(c, p) && PairOk(c, i0, j0) && FreeFrom(c, f, i0) && FreeFrom(c, f, j0);
    hide Linear, Steps, FreeAlone;
  }

  lemma EvictedLinked(c: Chains, mp: nat, f: nat, p: nat, k: Key)
    requires MayEvict(c, mp, f, p) && k != KNil
    ensures Linked(Evicted(c, mp, f, p, k))
  {
    var c' := Evicted(c, mp, f, p, k);
    forall i | 0 <= i < |c'.nodes| && c'.nodes[i].next != 0 ensures StepOk(c', i) { EvictedStep(c, mp, f, p, k, i); }
    forall i, j | 0 <= i < |c'.nodes| && 0 <= j < |c'.nodes| ensures PairOk(c', i, j) { EvictedPair(c, mp, f, p, k, i, j); }
    assert StepOk(c, p) && c.nodes[p].key != KNil by { assert c.nodes[p].key == KNil ==> FreeFrom(c, p, p); }
    forall i, j | 0 <= i < |c'.nodes| && 0 <= j < |c'.nodes| && c'.nodes[i].key == KNil ensures FreeFrom(c', i, j) {
      assert FreeFrom(c, i, j) && FreeFrom(c, i, mp) && FreeFrom(c, i, f);
    }
  }

  lemma EvictedOk(h: Hashes, c: Chains, mp: nat, f: nat, p: nat, k: Key)
    requires NodesOk(h, c) && MayEvict(c, mp, f, p) && MainPosition(h, |c.nodes|, c.nodes[mp].key) != mp
    requires k != KNil && MainPosition(h, |c.nodes|, k) == mp && NoKey(c.nodes, k)
    ensures NodesOk(h, Evicted(c, mp, f, p, k))
  {
    hide Steps, Linear, FreeAlone, MainPosition;
    var c' := Evicted(c, mp, f, p, k);
    EvictedLinked(c, mp, f, p, k);
    forall i | 0 <= i < |c'.nodes| && c'.nodes[i].key != KNil ensures Home(h, c', i) {
      if i != mp { assert Home(h, c, if i == f then mp else i); }
    }
    EvictedDistinct(c, mp, f, p, k);
  }

  lemma EvictedDistinct(c: Chains, mp: nat, f: nat, p: nat, k: Key)
    requires Distinct(c.nodes) && mp < |c.nodes| && f < |c.nodes| && p < |c.nodes| && Sized(c) && NoKey(c.nodes, k)
    requires c.nodes[f].key == KNil && c.nodes[mp].key != KNil
    ensures Distinct(Evicted(c, mp, f, p, k).nodes)
  {}
}
