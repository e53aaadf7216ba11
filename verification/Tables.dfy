// Lua tables (ltable.c): an array part and a hash part that together are a finite map.

module Tables {
  import opened TableSizes
  import opened TableNodes

  // Keys as they are stored.
  predicate Normal(k: Key) {
    k != KNil && !(k.KFlt? && (k.x.NaN? || k.x.Whole?))
  }

  // Floats with integer values stand for the integers.
  function Normalize(k: Key): Key {
    if k.KFlt? && k.x.Whole? then KInt(k.x.n) else k
  }

  type Map = map<Key, Value>

  function Lookup(m: Map, k: Key): Value {
    if Normalize(k) in m then m[Normalize(k)] else VNil
  }

  // Assignment: nil removes the key.
  function Assigned(m: Map, k: Key, v: Value): Map {
    if v == VNil then m - {k} else m[k := v]
  }

  // Equality of keys in the language: an integer and a float are equal if they have the same
  // mathematical value; NaN is not equal to anything.
  predicate RawEqual(k: Key, q: Key) {
    match (k, q)
    case (KInt(n), KFlt(Whole(i))) => n == i
    case (KFlt(Whole(n)), KInt(i)) => n == i
    case (KFlt(NaN), _) => false
    case _ => k == q
  }

  // What is assigned is read back with any key that is equal, and no other entry changes.
  lemma AssignedRead(m: Map, k: Key, v: Value, q: Key)
    requires k != KNil && k != KFlt(NaN) && forall x :: x in m ==> Normal(x)
    ensures Lookup(Assigned(m, Normalize(k), v), q) == if RawEqual(k, q) then v else Lookup(m, q)
  {}

  predicate InArray(k: Key, size: nat) {
    k.KInt? && 1 <= k.n <= size
  }

  ghost predicate Stored(arr: seq<Value>, nodes: seq<Node>, k: Key, v: Value) {
    if InArray(k, |arr|) then arr[k.n - 1] == v else Has(nodes, k, v)
  }

  // The two parts hold the map.
  ghost predicate Content(arr: seq<Value>, nodes: seq<Node>, m: Map) {
    && (forall i :: 0 <= i < |arr| && arr[i] != VNil ==> KInt(i + 1) in m)
    && (forall i :: 0 <= i < |nodes| && nodes[i].val != VNil ==> nodes[i].key in m && !InArray(nodes[i].key, |arr|))
    && (forall k :: k in m ==> Normal(k) && m[k] != VNil && Stored(arr, nodes, k, m[k]))
  }

  ghost function Keys(nodes: seq<Node>): set<Key> {
    set i | 0 <= i < |nodes| && nodes[i].key != KNil :: nodes[i].key
  }

  // The same entries in other nodes.
  lemma ContentMoved(arr: seq<Value>, nodes: seq<Node>, nodes': seq<Node>, m: Map)
    requires Content(arr, nodes, m)
    requires forall i :: 0 <= i < |nodes| && nodes[i].val != VNil ==> Has(nodes', nodes[i].key, nodes[i].val)
    requires forall i :: 0 <= i < |nodes'| && nodes'[i].val != VNil ==> Has(nodes, nodes'[i].key, nodes'[i].val)
    ensures Content(arr, nodes', m)
  {
    forall k | k in m ensures Stored(arr, nodes', k, m[k]) {
      assert Stored(arr, nodes, k, m[k]);
      if !InArray(k, |arr|) { assert Has(nodes, k, m[k]); }
    }
  }

  ghost predicate Has(nodes: seq<Node>, k: Key, v: Value) {
    exists i :: 0 <= i < |nodes| && nodes[i].key == k && nodes[i].val == v
  }

  lemma HasAt(nodes: seq<Node>, i: nat)
    requires i < |nodes|
    ensures Has(nodes, nodes[i].key, nodes[i].val)
  {}

  // An index in use (or 0) before one that is not.
  predicate Boundary(m: Map, n: nat) {
    (n == 0 || KInt(n) in m) && KInt(n + 1) !in m
  }

  datatype Status = Fine | NilIndex | NaNIndex | Overflow

  datatype Cell = NoCell | ArrayCell(i: nat) | NodeCell(i: nat)

  class Table {
    var arr: seq<Value>      // t->array, of t->sizearray slots
    var node: seq<Node>
    var lastfree: nat  // free nodes come before it
    var dummy: bool          // the hash part is the common dummy node
    const h: Hashes
    ghost var chain: seq<int>
    ghost var rank: seq<nat>
    ghost var m: Map

    ghost function Nodes(): Chains
      reads this
    {
      Chains(node, chain, rank)
    }

    ghost predicate NodesValid()
      reads this
    {
      && NodesOk(h, Nodes()) && (exists l: nat :: |node| == Pow2(l))
      && (forall i :: 0 <= i < |node| && node[i].key != KNil ==> Normal(node[i].key))
      && lastfree <= |node| && (!dummy ==> forall i :: lastfree <= i < |node| ==> node[i].key != KNil)
      && (dummy ==> lastfree == 0 && node == [Node(KNil, VNil, 0)])
    }

    ghost predicate Valid()
      reads this
    {
      NodesValid() && Content(arr, node, m) && |arr| <= MAXASIZE
    }

    // Is there a free node?
    ghost predicate Room()
      reads this
    {
      !dummy && exists i :: 0 <= i < |node| && node[i].key == KNil
    }

    ghost predicate CellFor(k: Key, c: Cell)
      reads this
    {
      match c
      case NoCell => !InArray(k, |arr|) && NoKey(node, k)
      case ArrayCell(i) => InArray(k, |arr|) && i == k.n - 1
      case NodeCell(i) => !InArray(k, |arr|) && i < |node| && node[i].key == k
    }

    // luaH_new.
    constructor (h: Hashes)
      ensures Valid() && m == map[] && this.h == h && arr == [] && dummy
    {
      this.h := h;
      arr, node, lastfree, dummy := [], [Node(KNil, VNil, 0)], 0, true;
      chain, rank, m := [0], [0], map[];
      new;
      assert Pow2(0) == 1;
    }

    // -------------------------------------------------------------------------- search

    // Follows the chain of the main position.
    method Chase(k: Key) returns (c: Cell)
      requires NodesValid() && k != KNil
      ensures match c case NoCell => NoKey(node, k) case ArrayCell(_) => false case NodeCell(i) => i < |node| && node[i].key == k
    {
      ghost var mp := MainPosition(h, |node|, k);
      var n := MainPosition(h, |node|, k);
      while node[n].key != k
        invariant 0 <= n < |node| && Reaches(Nodes(), mp, n)
        invariant forall i :: 0 <= i < |node| && node[i].key == k ==> Reaches(Nodes(), n, i)
        decreases rank[n]
      {
        forall i | 0 <= i < |node| && node[i].key == k ensures node[n].next != 0 && StepOk(Nodes(), n) && Reaches(Nodes(), Succ(node, n), i) {
          NextReaches(Nodes(), n, i);
        }
        if node[n].next == 0 {
          return NoCell;
        }
        assert StepOk(Nodes(), n);
        n := n + node[n].next;
      }
      c := NodeCell(n);
    }

    // luaH_getint.
    method GetInt(n: int) returns (c: Cell)
      requires NodesValid()
      ensures CellFor(KInt(n), c)
    {
      if 1 <= n && n <= |arr| {
        c := ArrayCell(n - 1);
      } else {
        c := Chase(KInt(n));
      }
    }

    // luaH_get: where the key is.
    method Find(k: Key) returns (c: Cell)
      requires NodesValid()
      ensures k != KNil ==> CellFor(Normalize(k), c)
      ensures k == KNil ==> c == NoCell
    {
      match k {
        case KInt(n) =>
          c := GetInt(n);
        case KNil =>
          c := NoCell;
        case KFlt(x) =>
          if x.Whole? {
            c := GetInt(x.n);
          } else {
            c := Chase(k);
          }
        case _ =>
          c := Chase(k);
      }
    }

    function At(c: Cell): Value
      reads this
      requires match c case NoCell => true case ArrayCell(i) => i < |arr| case NodeCell(i) => i < |node|
    {
      match c
      case NoCell => VNil
      case ArrayCell(i) => arr[i]
      case NodeCell(i) => node[i].val
    }

    // The value of a key is that in the map.
    method Get(k: Key) returns (v: Value)
      requires Valid()
      ensures v == Lookup(m, k)
      // without naming how keys are stored
      ensures k.KFlt? && k.x.Whole? ==> v == Lookup(m, KInt(k.x.n)) && v == (if KInt(k.x.n) in m then m[KInt(k.x.n)] else VNil)
      ensures !(k.KFlt? && k.x.Whole?) ==> v == if k in m then m[k] else VNil
    {
      var c := Find(k);
      if k != KNil { CellValue(Normalize(k), c); }
      v := At(c);
    }

    lemma CellValue(k: Key, c: Cell)
      requires Valid() && CellFor(k, c) && k != KNil
      ensures At(c) == if k in m then m[k] else VNil
    {
      hide Linked, Homes;
      if k in m { assert Stored(arr, node, k, m[k]); }
      if c.NodeCell? && k in m {
        var j :| 0 <= j < |node| && node[j].key == k && node[j].val == m[k];
        assert j == c.i;
      }
    }

    // ----------------------------------------------------------------------- insertion

    // getfreepos.
    method GetFreePos() returns (found: bool, f: nat)
      requires NodesValid()
      modifies `lastfree
      ensures found ==> !dummy && f == lastfree < |node| && node[f].key == KNil && forall i :: f < i < |node| ==> node[i].key != KNil
      ensures !found ==> !old(Room()) && NodesValid() && lastfree == 0
    {
      f := 0;
      while lastfree > 0
        invariant lastfree <= |node| && (dummy ==> lastfree == 0)
        invariant !dummy ==> forall i :: lastfree <= i < |node| ==> node[i].key != KNil
        decreases lastfree
      {
        lastfree := lastfree - 1;
        if node[lastfree].key == KNil {
          return true, lastfree;
        }
      }
      found := false;
    }

    // The node before mp in its chain.
    method Previous(start: nat, mp: nat) returns (p: nat)
      requires Linked(Nodes()) && start < |node| && mp < |node| && start != mp && Reaches(Nodes(), start, mp)
      ensures p < |node| && node[p].next != 0 && Succ(node, p) == mp
    {
      p := start;
      NextReaches(Nodes(), p, mp);
      while p + node[p].next != mp
        invariant 0 <= p < |node| && p != mp && Reaches(Nodes(), p, mp) && node[p].next != 0 && StepOk(Nodes(), p)
        decreases rank[p]
      {
        NextReaches(Nodes(), p, mp);
        p := p + node[p].next;
        NextReaches(Nodes(), p, mp);
      }
    }

    // What placing a key leaves: the map and the array part are as they were.
    ghost predicate Placed(k: Key, c: Cell, before: seq<Node>)
      reads this
    {
      NodesValid() && Content(arr, node, m) && |node| == |before| && Keys(node) <= Keys(before) + {k} && c.NodeCell? && c.i < |node| && node[c.i].key == k
    }

    // The key goes to its main position, which is free or has a nil value.
    method TakeMain(k: Key, mp: nat) returns (c: Cell)
      requires NodesValid() && Content(arr, node, m) && !dummy && Normal(k) && NoKey(node, k)
      requires mp == MainPosition(h, |node|, k) && node[mp].val == VNil
      modifies `node
      ensures Placed(k, c, old(node)) && node[c.i].val == VNil
    {
      hide Steps, Linear, FreeAlone, Homes;
      TakenOk(h, Nodes(), mp, k);
      ghost var before := node;
      node := node[mp := node[mp].(key := k)];
      c := NodeCell(mp);
      TakenContent(arr, before, mp, k, m);
    }

    // The node there has a right to its place: the key goes to the free node f.
    method InsertAfter(k: Key, mp: nat, f: nat) returns (c: Cell)
      requires NodesOk(h, Nodes()) && Normal(k) && NoKey(node, k) && Free(f) && Content(arr, node, m)
      requires mp == MainPosition(h, |node|, k) && node[mp].key != KNil && MainPosition(h, |node|, node[mp].key) == mp
      modifies `node, `chain, `rank
      ensures Placed(k, c, old(node)) && node[c.i].val == VNil
    {
      hide Steps, Linear, FreeAlone, Homes;
      InsertedOk(h, Nodes(), mp, f, k);
      FreeIs(Nodes(), f);
      ghost var c0 := Nodes();
      if node[mp].next != 0 {
        node := node[f := node[f].(next := (mp + node[mp].next) - f)];
      }
      node := node[mp := node[mp].(next := f - mp)];
      node := node[f := node[f].(key := k)];
      chain := Inserted(c0, mp, f, k).chain;
      rank := Inserted(c0, mp, f, k).rank;
      c := NodeCell(f);
      assert node == Inserted(c0, mp, f, k).nodes;
      InsertedContent(arr, c0, mp, f, k, m);
    }

    // Moves the node at mp to f, after p; then mp gets the key.
    method MoveNode(k: Key, mp: nat, f: nat, p: nat)
      requires Sized(Nodes()) && mp < |node| && f < |node| && p < |node| && mp != f && p != f && p != mp
      modifies `node
      ensures node == Evicted(old(Nodes()), mp, f, p, k).nodes
    {
      node := node[p := node[p].(next := f - p)];
      node := node[f := node[mp]];  // ... and moves there
      if node[mp].next != 0 {
        node := node[f := node[f].(next := node[f].next + (mp - f))];  // offsets are relative
        node := node[mp := node[mp].(next := 0)];
      }
      node := node[mp := node[mp].(val := VNil)];
      node := node[mp := node[mp].(key := k)];
    }

    // The colliding node is out of its main position: it moves to the free node f.
    method Evict(k: Key, mp: nat, f: nat) returns (c: Cell)
      requires NodesOk(h, Nodes()) && Normal(k) && NoKey(node, k) && Free(f) && Content(arr, node, m)
      requires mp == MainPosition(h, |node|, k) && node[mp].key != KNil && MainPosition(h, |node|, node[mp].key) != mp
      modifies `node, `chain, `rank
      ensures Placed(k, c, old(node)) && node[c.i].val == VNil
    {
      hide Steps, Linear, FreeAlone, Content, MainPosition, Distinct;
      ghost var c0 := Nodes();
      assert Home(h, c0, mp);
      var p := Previous(MainPosition(h, |node|, node[mp].key), mp);
      EvictedOk(h, c0, mp, f, p, k);
      FreeIs(c0, f);
      PreviousApart(c0, mp, f, p);
      MoveNode(k, mp, f, p);
      chain := Evicted(c0, mp, f, p, k).chain;
      rank := Evicted(c0, mp, f, p, k).rank;
      c := NodeCell(mp);
      EvictedContent(arr, c0, mp, f, p, k, m);
    }

    // f is free, and is the last free node.
    ghost predicate Free(f: nat)
      reads this
    {
      && !dummy && f == lastfree < |node| && node[f].key == KNil && (exists l: nat :: |node| == Pow2(l))
      && (forall i :: f < i < |node| ==> node[i].key != KNil)
      && (forall i :: 0 <= i < |node| && node[i].key != KNil ==> Normal(node[i].key))
    }

    // ---------------------------------------------------------------------- counting keys

    // numusearray: the keys in use in the array part.
    method NumUseArray(nums0: seq<nat>) returns (nums: seq<nat>, ause: nat)
      requires |arr| <= MAXASIZE && Counts(nums0, {})
      ensures Counts(nums, InUse(arr, 0, |arr|)) && ause == |InUse(arr, 0, |arr|)|
    {
      hide Counts, InUse, IsCeilLog2, Pow2;
      nums := nums0;
      ause := 0;
      var i, lg, ttlg := 1, 0, 1;
      assert InUse(arr, 0, 0) == {} && Pow2(0) == 1 by { NoneInUse(arr); }
      while lg <= MAXABITS
        invariant 0 <= lg <= MAXABITS + 1 && (lg <= MAXABITS ==> ttlg == Pow2(lg)) && 1 <= i <= |arr| + 1
        invariant i - 1 == Least(|arr|, if lg == 0 then 0 else Pow2(lg - 1))
        invariant Counts(nums, InUse(arr, 0, i - 1)) && ause == |InUse(arr, 0, i - 1)|
      {
        var lc, lim := 0, ttlg;
        if lim > |arr| {
          lim := |arr|;
          if i > lim {
            break;
          }
        }
        ghost var i0 := i - 1;
        SliceStart(lg, i0, |arr|);
        EmptyUse(arr, i0);
        while i <= lim
          invariant i0 < i <= lim + 1 && lc == |InUse(arr, i0, i - 1)|
        {
          OneUse(arr, i0, i);
          if arr[i - 1] != VNil {
            lc := lc + 1;
          }
          i := i + 1;
        }
        SliceInUse(nums, arr, i0, lim, lg);
        nums := nums[lg := nums[lg] + lc];
        ause := ause + lc;
        SliceEnd(lg);
        lg := lg + 1;
        ttlg := ttlg * 2 % UINT;
      }
      Pow2At();
    }

    // countint.
    method CountInt(k: Key, nums0: seq<nat>, ghost S: set<nat>) returns (nums: seq<nat>, r: nat)
      requires Counts(nums0, S) && (Candidate(k) ==> k.n !in S)
      ensures Counts(nums, S + IntOf({k})) && r == |IntOf({k})| && r <= 1
    {
      nums, r := nums0, 0;
      if k.KInt? && 0 < k.n <= MAXASIZE {
        var l := CeilLog2(k.n);
        CountsAdd(nums, S, k.n, l);
        nums := nums[l := nums[l] + 1];
        r := 1;
        assert IntOf({k}) == {k.n};
      } else {
        assert IntOf({k}) == {};
        assert S + {} == S;
      }
    }

    // numusehash: the keys in use in the hash part, and how many are array candidates.
    method NumUseHash(nums0: seq<nat>, pna0: nat, ghost S: set<nat>) returns (nums: seq<nat>, pna: nat, totaluse: nat)
      requires Distinct(node) && Counts(nums0, S) && S !! IntOf(LiveKeys(node, 0)) && LiveHaveKeys(node)
      ensures Counts(nums, S + IntOf(LiveKeys(node, 0))) && pna == pna0 + |IntOf(LiveKeys(node, 0))| && totaluse == |LiveKeys(node, 0)|
    {
      hide Counts, Distinct, IntOf, LiveKeys, LiveHaveKeys;
      nums, totaluse := nums0, 0;
      var ause := 0;
      var i := |node|;
      NoneLive(node);
      assert S + {} == S;
      while i > 0
        invariant 0 <= i <= |node| && totaluse == |LiveKeys(node, i)|
        invariant Counts(nums, S + IntOf(LiveKeys(node, i))) && ause == |IntOf(LiveKeys(node, i))|
      {
        i := i - 1;
        LiveStep(node, i, S);
        if node[i].val != VNil {
          var r;
          nums, r := CountInt(node[i].key, nums, S + IntOf(LiveKeys(node, i + 1)));
          assert S + IntOf(LiveKeys(node, i + 1)) + IntOf({node[i].key}) == S + IntOf(LiveKeys(node, i));
          ause := ause + r;
          totaluse := totaluse + 1;
        }
      }
      pna := pna0 + ause;
    }

    // ------------------------------------------------------------------------- resizing

    // setnodevector; fails if there cannot be so many nodes.
    method SetNodeVector(size: nat, limit: nat) returns (ok: bool)
      modifies `node, `lastfree, `dummy, `chain, `rank
      ensures (ok <==> NodesFit(size, limit)) && (ok ==> NodesFor(size, |node|))
      ensures ok ==> NodesValid() && Keys(node) == {} && (forall i :: 0 <= i < |node| ==> node[i].val == VNil) && |node| >= size && (dummy <==> size == 0)
      ensures !ok ==> node == old(node) && lastfree == old(lastfree) && dummy == old(dummy) && chain == old(chain) && rank == old(rank)
    {
      var lsize, n := 0, 1;
      if size != 0 {
        lsize := CeilLog2(size);
        n := Pow2(lsize);
        CeilLog2Only(size, lsize);
        if lsize > MAXHBITS || n > limit {
          return false;  // table overflow
        }
      }
      FreshOk(h, n);
      dummy := size == 0;
      assert Pow2(0) == 1;
      node := seq(n, i => Node(KNil, VNil, 0));
      chain := FreshNodes(n).chain;
      rank := FreshNodes(n).rank;
      lastfree := if size == 0 then 0 else n;
      assert dummy ==> node == [Node(KNil, VNil, 0)];
      ok := true;
    }

    // Writes to the place of a key.
    method Write(c: Cell, k: Key, v: Value)
      requires Valid() && CellFor(k, c) && c != NoCell && Normal(k)
      modifies `arr, `node, `m
      ensures Valid() && m == Assigned(old(m), k, v) && Keys(node) == old(Keys(node)) && |arr| == old(|arr|) && |node| == old(|node|)
    {
      hide NodesOk, Content, Keys, Assigned;
      match c {
        case ArrayCell(i) =>
          WriteArray(arr, node, m, i, v);
          arr := arr[i := v];
        case NodeCell(i) =>
          DummyFree(this, i);
          WriteNode(h, Nodes(), arr, m, i, v);
          node := node[i := node[i].(val := v)];
      }
      m := Assigned(m, k, v);
    }

    // 0: a place for the key can be found without resizing.
    ghost function Level(k: Key): nat
      reads this
    {
      if InArray(k, |arr|) || k in Keys(node) || Room() then 0 else 1
    }

    // Not too many array candidates.
    ghost predicate Bounded(k: Key)
      reads this
    {
      |IntOf(m.Keys + {k})| <= Pow2(30)
    }

    // Only a rehash can make a place for the key: it is new, its main position is in use
    // and no node is free.
    ghost predicate Full(k: Key)
      reads this
    {
      Level(k) == 1 && (dummy || (|node| > 0 && node[MainPosition(h, |node|, k)].val != VNil))
    }

    // The sizes that a rehash of the map om for the key gives.
    ghost predicate Fitted(om: Map, k: Key)
      reads this
    {
      Optimal(IntOf(om.Keys + {k}), |arr|) && NodesFor(HashSize(om, k, |arr|), |node|)
    }

    // What a failed allocation leaves: at most the array part has grown.
    ghost predicate OnlyGrown(om: Map, oarr: seq<Value>, onode: seq<Node>)
      reads this
    {
      m == om && node == onode && arr == Grown(oarr, |arr|) && NodesValid()
    }

    // What a rehash for the key leaves that cannot allocate what it needs. If there are no
    // slots the table is as it was; if there are no nodes the array part has grown, and the
    // table is still a map if and only if this hides no key.
    ghost predicate Failed(om: Map, oarr: seq<Value>, onode: seq<Node>, k: Key, limit: Memory)
      reads this
    {
      && OnlyGrown(om, oarr, onode)
      && (exists na: nat :: Optimal(IntOf(m.Keys + {k}), na) && |arr| == AfterFailure(na, |oarr|, limit))
      && (Valid() <==> |arr| == |oarr| || !Hidden(oarr, m, k))
    }

    // Puts an entry back.
    method Reinsert(k: Key, v: Value, limit: Memory, ghost om: Map)
      requires Valid() && k in om && om[k] == v && Normal(k) && v != VNil
      requires Keys(node) <= HashKeys(om, |arr|) && |HashKeys(om, |arr|)| <= |node| && (dummy ==> HashKeys(om, |arr|) == {})
      modifies this
      ensures Valid() && m == old(m)[k := v] && |arr| == |old(arr)| && |node| == |old(node)| && dummy == old(dummy)
      ensures Keys(node) <= HashKeys(om, |arr|)
      decreases 0, 3
    {
      hide NodesOk, Content, Keys;
      RoomFor(this, k, om);
      var st, c := Set(k, limit);
      Write(c, k, v);
    }

    // luaH_resize; fails when the slots or the nodes cannot be allocated.
    method Resize(nasize: nat, nhsize: nat, limit: Memory) returns (ok: bool)
      requires Valid() && nasize <= MAXASIZE && |HashKeys(m, nasize)| <= nhsize
      modifies this
      ensures ok ==> Valid() && m == old(m) && |arr| == nasize && Keys(node) <= HashKeys(m, nasize) && |node| >= nhsize && (dummy ==> nhsize == 0)
      ensures ok <==> SlotsFit(nasize, old(|arr|), limit) && NodesFit(nhsize, limit.nodes)
      ensures ok ==> NodesFor(nhsize, |node|)
      ensures !ok ==> OnlyGrown(old(m), old(arr), old(node)) && |arr| == AfterFailure(nasize, old(|arr|), limit)
      decreases 0, 4
    {
      hide NodesOk, Content, HashKeys, Keys;
      var oldarr, oldnode := arr, node;
      LiveKeyed(h, Nodes());
      ghost var om := m;
      if nasize > |arr| {
        if nasize > limit.slots {
          return false;
        }
        arr := Grown(arr, nasize);
      }
      ok := SetNodeVector(nhsize, limit.nodes);
      if !ok {
        return;
      }
      if nasize < |oldarr| {
        arr := arr[..nasize];
      }
      m := FirstPart(om, Least(nasize, |oldarr|));
      Restarted(oldarr, oldnode, om, arr, node, m);
      NoHashKeys(om, nasize);
      ReinsertArray(oldarr, oldnode, nasize, limit, om);
      ReinsertNodes(oldarr, oldnode, limit, om);
      AllBack(oldarr, oldnode, om, m);
    }

    // Re-inserts the elements of the vanishing slice.
    method ReinsertArray(oldarr: seq<Value>, ghost oldnode: seq<Node>, nasize: nat, limit: Memory, ghost om: Map)
      requires Valid() && Content(oldarr, oldnode, om) && Within(m, om) && |arr| == nasize && ArrayDone(oldarr, m, Least(nasize, |oldarr|))
      requires Keys(node) <= HashKeys(om, |arr|) && |HashKeys(om, |arr|)| <= |node| && (dummy ==> HashKeys(om, |arr|) == {})
      modifies this
      ensures Valid() && Within(m, om) && |arr| == nasize && ArrayDone(oldarr, m, |oldarr|) && |node| == |old(node)| && dummy == old(dummy)
      ensures Keys(node) <= HashKeys(om, |arr|)
      decreases 0, 4, 0
    {
      hide NodesOk, HashKeys, Keys;
      var i := nasize;
      while i < |oldarr|
        invariant Valid() && Within(m, om) && |arr| == nasize && ArrayDone(oldarr, m, Least(i, |oldarr|)) && i >= nasize
        invariant Keys(node) <= HashKeys(om, |arr|) && |node| == |old(node)| && dummy == old(dummy)
      {
        if oldarr[i] != VNil {
          assert KInt(i + 1) in om && Stored(oldarr, oldnode, KInt(i + 1), om[KInt(i + 1)]);
          Reinsert(KInt(i + 1), oldarr[i], limit, om);
        }
        i := i + 1;
      }
    }

    // Re-inserts the elements of the old hash part.
    method ReinsertNodes(oldarr: seq<Value>, oldnode: seq<Node>, limit: Memory, ghost om: Map)
      requires Valid() && Content(oldarr, oldnode, om) && Within(m, om) && ArrayDone(oldarr, m, |oldarr|) && Distinct(oldnode) && LiveHaveKeys(oldnode)
      requires Keys(node) <= HashKeys(om, |arr|) && |HashKeys(om, |arr|)| <= |node| && (dummy ==> HashKeys(om, |arr|) == {})
      modifies this
      ensures Valid() && Within(m, om) && |arr| == |old(arr)| && ArrayDone(oldarr, m, |oldarr|) && NodesDone(oldnode, m, 0)
      ensures Keys(node) <= HashKeys(om, |arr|) && |node| == |old(node)| && dummy == old(dummy)
      decreases 0, 4, 0
    {
      hide NodesOk, HashKeys, Keys;
      var j := |oldnode|;
      while j > 0
        invariant 0 <= j <= |oldnode| && Valid() && Within(m, om) && |arr| == |old(arr)| && ArrayDone(oldarr, m, |oldarr|) && NodesDone(oldnode, m, j)
        invariant Keys(node) <= HashKeys(om, |arr|) && |node| == |old(node)| && dummy == old(dummy)
      {
        j := j - 1;
        if oldnode[j].val != VNil {
          NodeEntry(oldarr, oldnode, om, j);
          Reinsert(oldnode[j].key, oldnode[j].val, limit, om);
        }
      }
    }

    // The keys in use and the new one, counted.
    method CountKeys(k: Key) returns (nums: seq<nat>, pna: nat, totaluse: nat)
      requires Valid() && Level(k) == 1 && Normal(k)
      ensures k !in m && Counts(nums, IntOf(m.Keys + {k})) && pna == |IntOf(m.Keys + {k})| && totaluse == |m.Keys| + 1
    {
      hide NodesOk, Content, Counts, Keys, IntOf, LiveKeys, InUse, LiveHaveKeys, Distinct;
      nums := seq(MAXABITS + 1, i => 0);
      CountsNone(nums);
      var na, total, r;
      nums, na := NumUseArray(nums);
      totaluse := na;
      ghost var A := InUse(arr, 0, |arr|);
      LiveKeyed(h, Nodes());
      NotInMap(arr, node, m, k);
      CountedApart(arr, node, m, k);
      nums, pna, total := NumUseHash(nums, na, A);
      totaluse := totaluse + total;
      nums, r := CountInt(k, nums, A + IntOf(LiveKeys(node, 0)));
      pna := pna + r;
      totaluse := totaluse + 1;
      CountedAll(arr, node, m, k);
    }

    // rehash: sizes the parts for the keys in use and the new one.
    method Rehash(k: Key, limit: Memory) returns (ok: bool)
      requires Valid() && Normal(k) && Level(k) == 1 && Bounded(k)
      modifies this
      ensures ok <==> Fits(old(m), k, old(|arr|), limit)
      ensures ok ==> Valid() && m == old(m) && Level(k) == 0 && Fitted(m, k)
      ensures !ok ==> Failed(old(m), old(arr), old(node), k, limit)
      decreases 0, 5
    {
      hide NodesOk, Content, Optimal, Counts, NodesFit, NodesFor, Fits, Hidden, Keys, IntOf, Failed, OnlyGrown, SlotsFit, AfterFailure;
      ghost var om, oldarr, oldnode := m, arr, node;
      var nums, pna, totaluse := CountKeys(k);
      var asize, na, _ := ComputeSizes(nums, pna, IntOf(m.Keys + {k}));
      OptimalSmall(IntOf(m.Keys + {k}), asize);
      HashCount(m.Keys + {k}, asize);
      HashKeysGrow(m, k, asize);
      FitsAt(m, k, asize, |arr|, limit);
      ok := Resize(asize, totaluse - na, limit);
      if ok {
        RoomAfter(this, k, totaluse - na);
      } else {
        FailedHides(this, om, oldarr, oldnode, k, asize, limit);
      }
    }

    // Grows the table, and makes a place for the key.
    method Grow(k: Key, limit: Memory) returns (st: Status, c: Cell)
      requires Valid() && Normal(k) && Level(k) == 1 && Bounded(k)
      modifies this
      ensures st.Fine? || st.Overflow?
      ensures st.Fine? ==> Valid() && m == old(m) && CellFor(k, c) && c != NoCell && Fitted(m, k)
      ensures st.Overflow? <==> !Fits(old(m), k, old(|arr|), limit)
      ensures st.Overflow? ==> Failed(old(m), old(arr), old(node), k, limit)
      decreases 1, 0
    {
      hide NodesOk, Content, Fits, Optimal, NodesFor, HashSize, Hidden, IntOf;
      c := NoCell;
      var ok := Rehash(k, limit);
      if !ok {
        return Overflow, c;
      }
      st, c := Set(k, limit);  // there is room now
    }

    // The main position is taken, and f is free.
    method Collide(k: Key, mp: nat, f: nat) returns (c: Cell)
      requires NodesOk(h, Nodes()) && Normal(k) && NoKey(node, k) && Free(f) && Content(arr, node, m)
      requires mp == MainPosition(h, |node|, k) && node[mp].val != VNil
      modifies `node, `chain, `rank
      ensures Placed(k, c, old(node)) && node[c.i].val == VNil
    {
      hide Linked, Homes, Content, Keys;
      LiveKeyed(h, Nodes());
      var othern := MainPosition(h, |node|, node[mp].key);
      if othern != mp {
        c := Evict(k, mp, f);
      } else {
        c := InsertAfter(k, mp, f);
      }
    }

    // luaH_newkey.
    method NewKey(k0: Key, limit: Memory) returns (st: Status, c: Cell)
      requires Valid() && var k := Normalize(k0); (Normal(k) ==> !InArray(k, |arr|) && NoKey(node, k) && (Level(k) == 1 ==> Bounded(k)))
      modifies this
      ensures st.Fine? ==> Normal(Normalize(k0)) && Valid() && m == old(m) && CellFor(Normalize(k0), c) && c != NoCell
      ensures st.Fine? && !old(Full(Normalize(k0))) ==> Local(Normalize(k0))
      ensures st.NilIndex? <==> k0 == KNil
      ensures st.NaNIndex? <==> k0 == KFlt(NaN)
      ensures st.NilIndex? || st.NaNIndex? ==> Valid() && m == old(m)
      ensures st.Overflow? <==> Normal(Normalize(k0)) && old(Full(Normalize(k0))) && !Fits(old(m), Normalize(k0), old(|arr|), limit)
      ensures st.Overflow? ==> Failed(old(m), old(arr), old(node), Normalize(k0), limit)
      ensures st.Fine? && old(Full(Normalize(k0))) ==> Fitted(m, Normalize(k0))
      decreases Level(Normalize(k0)), 1
    {
      hide NodesOk, Content, Fits, Fitted, Failed;
      c := NoCell;
      if k0 == KNil {
        return NilIndex, c;
      }
      if k0 == KFlt(NaN) {
        return NaNIndex, c;
      }
      var k := Normalize(k0);  // the normalized key
      var mp := MainPosition(h, |node|, k);
      if node[mp].val != VNil || dummy {
        var found, f := GetFreePos();
        if !found {
          NotThere(node, k);
          st, c := Grow(k, limit);
          return;
        }
        c := Collide(k, mp, f);
      } else {
        c := TakeMain(k, mp);
      }
      st := Fine;
    }

    // What inserting without resizing leaves alone.
    twostate predicate Local(k: Key)
      reads this
    {
      arr == old(arr) && |node| == |old(node)| && dummy == old(dummy) && Keys(node) <= old(Keys(node)) + (if InArray(k, |arr|) then {} else {k})
    }

    // luaH_set: the place of a key, which is made if there is none. It resizes at most once.
    method Set(k: Key, limit: Memory) returns (st: Status, c: Cell)
      requires Valid() && (Normal(Normalize(k)) && Level(Normalize(k)) == 1 ==> Bounded(Normalize(k)))
      modifies this
      ensures st.Fine? ==> Normal(Normalize(k)) && Valid() && m == old(m) && CellFor(Normalize(k), c) && c != NoCell
      ensures st.Fine? && !old(Full(Normalize(k))) ==> Local(Normalize(k))
      ensures st.NilIndex? <==> k == KNil
      ensures st.NaNIndex? <==> k == KFlt(NaN)
      ensures st.NilIndex? || st.NaNIndex? ==> Valid() && m == old(m)
      ensures st.Overflow? <==> Normal(Normalize(k)) && old(Full(Normalize(k))) && !Fits(old(m), Normalize(k), old(|arr|), limit)
      ensures st.Overflow? ==> Failed(old(m), old(arr), old(node), Normalize(k), limit)
      ensures st.Fine? && old(Full(Normalize(k))) ==> Fitted(m, Normalize(k))
      decreases Level(Normalize(k)), 2
    {
      hide NodesOk, Content, Fits, Fitted, Failed;
      c := Find(k);
      st := Fine;
      if c == NoCell {
        st, c := NewKey(k, limit);
      } else {
        FoundNormal(this, k, c);
      }
    }

    lemma KeysNormal()
      requires Valid()
      ensures forall k :: k in m ==> Normal(k)
    {}

    // Assignment t[k] = v.
    method Put(k: Key, v: Value, limit: Memory) returns (st: Status)
      requires Valid() && (Normal(Normalize(k)) && Level(Normalize(k)) == 1 ==> Bounded(Normalize(k)))
      modifies this
      ensures st.Fine? ==> Valid() && Normal(Normalize(k)) && m == Assigned(old(m), Normalize(k), v)
      ensures st.Fine? && k.KFlt? && k.x.Whole? ==> m == Assigned(old(m), KInt(k.x.n), v)
      ensures st.Fine? && !(k.KFlt? && k.x.Whole?) ==> m == Assigned(old(m), k, v)
      ensures st.Fine? ==> forall q :: Lookup(m, q) == if RawEqual(k, q) then v else Lookup(old(m), q)
      ensures st.NilIndex? <==> k == KNil
      ensures st.NaNIndex? <==> k == KFlt(NaN)
      ensures st.NilIndex? || st.NaNIndex? ==> Valid() && m == old(m)
      ensures st.Overflow? <==> Normal(Normalize(k)) && old(Full(Normalize(k))) && !Fits(old(m), Normalize(k), old(|arr|), limit)
      ensures st.Overflow? ==> Failed(old(m), old(arr), old(node), Normalize(k), limit)
      ensures st.Fine? && old(Full(Normalize(k))) ==> Fitted(old(m), Normalize(k))
      ensures st.Fine? && !old(Full(Normalize(k))) ==> |arr| == old(|arr|) && |node| == old(|node|)
    {
      hide NodesOk, Content, Assigned;
      KeysNormal();
      var c;
      st, c := Set(k, limit);
      if st.Fine? {
        Write(c, Normalize(k), v);
        forall q ensures Lookup(m, q) == if RawEqual(k, q) then v else Lookup(old(m), q) { AssignedRead(old(m), k, v, q); }
      }
    }

    // ------------------------------------------------------------------------- length

    // Is index n in use?
    method Present(n: nat) returns (b: bool)
      requires Valid()
      ensures b <==> KInt(n) in m
    {
      hide NodesOk, Content;
      var c := GetInt(n);
      CellValue(KInt(n), c);
      InMap(arr, node, m, KInt(n));
      b := At(c) != VNil;
    }

    // unbound_search.
    method UnboundSearch(j0: nat) returns (n: nat)
      requires Valid() && (j0 == 0 || KInt(j0) in m) && j0 < 0x7fff_ffff
      ensures Boundary(m, n)
    {
      hide NodesOk, Content;
      var i, j := j0, j0 + 1;
      var b := Present(j);
      while b  // i is present; is j?
        invariant 0 <= i < j && (i == 0 || KInt(i) in m) && (b <==> KInt(j) in m)
        decreases 0xffff_ffff - j
      {
        i := j;
        if j > 0x7fff_ffff / 2 {  // overflow?
          n := LinearSearch();
          return;
        }
        j := j * 2;
        b := Present(j);
      }
      while j - i > 1  // bisection
        invariant 0 <= i < j && (i == 0 || KInt(i) in m) && KInt(j) !in m
      {
        var mid := (i + j) / 2;
        b := Present(mid);
        if !b {
          j := mid;
        } else {
          i := mid;
        }
      }
      n := i;
    }

    method LinearSearch() returns (n: nat)
      requires Valid()
      ensures Boundary(m, n)
    {
      hide NodesOk, Content;
      var i := 1;
      var b := Present(i);
      while b
        invariant i >= 1 && (b <==> KInt(i) in m) && (i > 1 ==> KInt(i - 1) in m)
        decreases |set k | k in m && k.KInt? && k.n >= i|
      {
        ghost var above := set k | k in m && k.KInt? && k.n >= i + 1;
        assert (set k | k in m && k.KInt? && k.n >= i) == above + {KInt(i)};
        i := i + 1;
        b := Present(i);
      }
      n := i - 1;
    }

    // luaH_getn: a boundary.
    method GetN() returns (n: nat)
      requires Valid() && |arr| < 0x7fff_ffff
      ensures Boundary(m, n)
    {
      hide NodesOk, Content;
      var j := |arr|;
      if j > 0 && arr[j - 1] == VNil {
        // the last element of the array part is nil: bisection
        var i := 0;
        while j - i > 1
          invariant 0 <= i < j <= |arr| && (i == 0 || arr[i - 1] != VNil) && arr[j - 1] == VNil
        {
          var mid := (i + j) / 2;
          if arr[mid - 1] == VNil {
            j := mid;
          } else {
            i := mid;
          }
        }
        InMap(arr, node, m, KInt(i));
        InMap(arr, node, m, KInt(j));
        n := i;
      } else if dummy {
        InMap(arr, node, m, KInt(j));
        InMap(arr, node, m, KInt(j + 1));
        n := j;
      } else {
        InMap(arr, node, m, KInt(j));
        n := UnboundSearch(j);
      }
    }
  }

  // ------------------------------------------------------------------------- counts

  // The indices in use above lo, up to hi.
  ghost function InUse(arr: seq<Value>, lo: nat, hi: nat): set<nat> {
    set n: nat | lo < n <= hi && Used(arr, n)
  }

  predicate Used(arr: seq<Value>, n: nat) {
    0 < n <= |arr| && arr[n - 1] != VNil
  }

  function Least(a: nat, b: nat): nat {
    if a < b then a else b
  }

  predicate Candidate(k: Key) {
    k.KInt? && 0 < k.n <= MAXASIZE
  }

  // The array candidates among the keys.
  ghost function IntOf(K: set<Key>): set<nat> {
    set n: nat | 0 < n <= MAXASIZE && KInt(n) in K
  }

  ghost function LiveKeys(nodes: seq<Node>, from: nat): set<Key> {
    set i | from <= i < |nodes| && nodes[i].val != VNil :: nodes[i].key
  }

  ghost predicate LiveHaveKeys(nodes: seq<Node>) {
    forall i :: 0 <= i < |nodes| && nodes[i].val != VNil ==> nodes[i].key != KNil
  }

  lemma NoneInUse(arr: seq<Value>)
    ensures InUse(arr, 0, 0) == {} && Pow2(0) == 1
  {}

  lemma EmptyUse(arr: seq<Value>, i: nat)
    ensures InUse(arr, i, i) == {}
  {}

  lemma OneUse(arr: seq<Value>, lo: nat, i: nat)
    requires lo < i <= |arr|
    ensures |InUse(arr, lo, i)| == |InUse(arr, lo, i - 1)| + (if arr[i - 1] != VNil then 1 else 0)
  {
    if arr[i - 1] != VNil {
      assert InUse(arr, lo, i) == InUse(arr, lo, i - 1) + {i};
    } else {
      assert InUse(arr, lo, i) == InUse(arr, lo, i - 1);
    }
  }

  lemma SliceStart(lg: nat, i0: nat, size: nat)
    requires lg <= MAXABITS && i0 == Least(size, if lg == 0 then 0 else Pow2(lg - 1))
    ensures i0 <= Pow2(lg)
  {
    if lg > 0 { assert Pow2(lg) == 2 * Pow2(lg - 1); }
  }

  lemma SliceEnd(lg: nat)
    requires lg <= MAXABITS
    ensures lg < MAXABITS ==> Pow2(lg) * 2 % UINT == Pow2(lg + 1)
  {
    Pow2At();
    if lg < MAXABITS { Pow2Mono(lg + 1, 31); }
  }

  lemma SliceInUse(nums: seq<nat>, arr: seq<Value>, i0: nat, lim: nat, lg: nat)
    requires Counts(nums, InUse(arr, 0, i0)) && lg <= MAXABITS && i0 <= lim == Least(|arr|, Pow2(lg))
    requires i0 == Least(|arr|, if lg == 0 then 0 else Pow2(lg - 1))
    ensures Counts(nums[lg := nums[lg] + |InUse(arr, i0, lim)|], InUse(arr, 0, lim))
    ensures |InUse(arr, 0, lim)| == |InUse(arr, 0, i0)| + |InUse(arr, i0, lim)| && lg < |nums|
  {
    assert InUse(arr, 0, lim) == InUse(arr, 0, i0) + InUse(arr, i0, lim);
    CountsSlice(nums, InUse(arr, 0, i0), InUse(arr, i0, lim), lg);
  }

  lemma NoneLive(nodes: seq<Node>)
    ensures LiveKeys(nodes, |nodes|) == {} && IntOf({}) == {}
  {}

  lemma LiveStep(nodes: seq<Node>, i: nat, S: set<nat>)
    requires i < |nodes| && Distinct(nodes) && LiveHaveKeys(nodes) && S !! IntOf(LiveKeys(nodes, 0))
    ensures nodes[i].val == VNil ==> LiveKeys(nodes, i) == LiveKeys(nodes, i + 1)
    ensures nodes[i].val != VNil ==>
      && |LiveKeys(nodes, i)| == |LiveKeys(nodes, i + 1)| + 1
      && IntOf(LiveKeys(nodes, i)) == IntOf(LiveKeys(nodes, i + 1)) + IntOf({nodes[i].key})
      && |IntOf(LiveKeys(nodes, i))| == |IntOf(LiveKeys(nodes, i + 1))| + |IntOf({nodes[i].key})|
      && (Candidate(nodes[i].key) ==> nodes[i].key.n !in S + IntOf(LiveKeys(nodes, i + 1)))
  {
    if nodes[i].val != VNil {
      var k := nodes[i].key;
      assert k !in LiveKeys(nodes, i + 1);
      assert LiveKeys(nodes, i) == LiveKeys(nodes, i + 1) + {k};
      assert IntOf(LiveKeys(nodes, i)) == IntOf(LiveKeys(nodes, i + 1)) + IntOf({k});
      assert IntOf(LiveKeys(nodes, i + 1)) !! IntOf({k});
      assert k in LiveKeys(nodes, 0);
      if Candidate(k) { assert k.n in IntOf(LiveKeys(nodes, 0)); }
    } else {
      assert LiveKeys(nodes, i) == LiveKeys(nodes, i + 1);
    }
  }

  lemma FreeIs(c: Chains, f: nat)
    requires Linked(c) && f < |c.nodes| && c.nodes[f].key == KNil
    ensures c.nodes[f] == Node(KNil, VNil, 0)
  {
    assert FreeFrom(c, f, f);
  }

  lemma PreviousApart(c: Chains, mp: nat, f: nat, p: nat)
    requires MayEvict(c, mp, f, p)
    ensures p != f && p != mp
  {
    assert StepOk(c, p) && FreeFrom(c, f, f);
  }

  lemma TakenContent(arr: seq<Value>, nodes: seq<Node>, mp: nat, k: Key, m: Map)
    requires Content(arr, nodes, m) && mp < |nodes| && nodes[mp].val == VNil && k != KNil
    ensures var nodes' := nodes[mp := nodes[mp].(key := k)];
      Content(arr, nodes', m) && Keys(nodes') <= Keys(nodes) + {k}
  {
    var nodes' := nodes[mp := nodes[mp].(key := k)];
    forall i | 0 <= i < |nodes| && nodes[i].val != VNil ensures Has(nodes', nodes[i].key, nodes[i].val) { HasAt(nodes', i); }
    forall i | 0 <= i < |nodes'| && nodes'[i].val != VNil ensures Has(nodes, nodes'[i].key, nodes'[i].val) { HasAt(nodes, i); }
    ContentMoved(arr, nodes, nodes', m);
  }

  lemma InsertedContent(arr: seq<Value>, c: Chains, mp: nat, f: nat, k: Key, m: Map)
    requires Sized(c) && Content(arr, c.nodes, m) && mp < |c.nodes| && f < |c.nodes| && c.nodes[f] == Node(KNil, VNil, 0) && mp != f && k != KNil
    ensures var nodes' := Inserted(c, mp, f, k).nodes;
      Content(arr, nodes', m) && Keys(nodes') <= Keys(c.nodes) + {k}
  {
    var nodes, nodes' := c.nodes, Inserted(c, mp, f, k).nodes;
    forall i | 0 <= i < |nodes| && nodes[i].val != VNil ensures Has(nodes', nodes[i].key, nodes[i].val) { HasAt(nodes', i); }
    forall i | 0 <= i < |nodes'| && nodes'[i].val != VNil ensures Has(nodes, nodes'[i].key, nodes'[i].val) { HasAt(nodes, i); }
    ContentMoved(arr, nodes, nodes', m);
  }

  lemma EvictedContent(arr: seq<Value>, c: Chains, mp: nat, f: nat, p: nat, k: Key, m: Map)
    requires Sized(c) && Content(arr, c.nodes, m) && mp < |c.nodes| && f < |c.nodes| && p < |c.nodes|
    requires c.nodes[f] == Node(KNil, VNil, 0) && mp != f && p != f && p != mp && k != KNil
    ensures var nodes' := Evicted(c, mp, f, p, k).nodes;
      Content(arr, nodes', m) && Keys(nodes') <= Keys(c.nodes) + {k}
  {
    var nodes, nodes' := c.nodes, Evicted(c, mp, f, p, k).nodes;
    forall i | 0 <= i < |nodes| && nodes[i].val != VNil ensures Has(nodes', nodes[i].key, nodes[i].val) { HasAt(nodes', if i == mp then f else i); }
    forall i | 0 <= i < |nodes'| && nodes'[i].val != VNil ensures Has(nodes, nodes'[i].key, nodes'[i].val) { HasAt(nodes, if i == f then mp else i); }
    ContentMoved(arr, nodes, nodes', m);
    forall q | q in Keys(nodes') ensures q in Keys(nodes) + {k} {
      var i :| 0 <= i < |nodes'| && nodes'[i].key != KNil && nodes'[i].key == q;
      if i != mp { assert nodes[if i == f then mp else i].key == q; }
    }
  }

  // -------------------------------------------------------------------------- allocation

  function Most(a: nat, b: nat): nat {
    if a > b then a else b
  }

  // How much can be allocated at a time.
  datatype Memory = Memory(slots: nat, nodes: nat)

  // An array part of so many slots can be had.
  predicate SlotsFit(size: nat, before: nat, limit: Memory) {
    size <= before || size <= limit.slots
  }

  // The array part after a resize to 'size' slots that has failed.
  function AfterFailure(size: nat, before: nat, limit: Memory): nat {
    if SlotsFit(size, before, limit) then Most(size, before) else before
  }

  // So many nodes, rounded up to a power of two, can be allocated.
  ghost predicate NodesFit(n: nat, limit: nat) {
    n == 0 || exists l: nat :: IsCeilLog2(n, l) && l <= MAXHBITS && Pow2(l) <= limit
  }

  // The nodes for n keys: none at all is the dummy node.
  ghost predicate NodesFor(n: nat, size: nat) {
    if n == 0 then size == 1 else exists l: nat :: IsCeilLog2(n, l) && size == Pow2(l)
  }

  // The keys for the hash part, a new one among them.
  ghost function HashSize(m: Map, k: Key, size: nat): nat {
    |set q | q in m.Keys + {k} && !InArray(q, size)|
  }

  // The slots and nodes that a rehash for a new key needs can be allocated.
  ghost predicate Fits(m: Map, k: Key, size: nat, limit: Memory) {
    exists na: nat :: Optimal(IntOf(m.Keys + {k}), na) && SlotsFit(na, size, limit) && NodesFit(HashSize(m, k, na), limit.nodes)
  }

  // An integer key of the hash part is in the range that the array part gets in a rehash
  // for the key.
  ghost predicate Hidden(arr: seq<Value>, m: Map, k: Key) {
    exists na: nat, q :: Optimal(IntOf(m.Keys + {k}), na) && q in m && InArray(q, na) && !InArray(q, |arr|)
  }

  lemma CeilLog2Only(n: nat, l: nat)
    requires IsCeilLog2(n, l) && n > 0
    ensures forall l': nat :: IsCeilLog2(n, l') ==> l' == l
  {
    forall l': nat | IsCeilLog2(n, l') ensures l' == l { CeilLog2Unique(n, l, l'); }
  }

  lemma OptimalUnique(S: set<nat>, a: nat, b: nat)
    requires Optimal(S, a) && Optimal(S, b)
    ensures a == b
  {}

  lemma FitsAt(m: Map, k: Key, na: nat, size: nat, limit: Memory)
    requires Optimal(IntOf(m.Keys + {k}), na)
    ensures Fits(m, k, size, limit) <==> SlotsFit(na, size, limit) && NodesFit(HashSize(m, k, na), limit.nodes)
  {
    hide NodesFit, SlotsFit, Optimal;
    forall na': nat | Optimal(IntOf(m.Keys + {k}), na') ensures na' == na { OptimalUnique(IntOf(m.Keys + {k}), na, na'); }
  }

  // ---------------------------------------------------------------------- re-insertion

  function Grown(arr: seq<Value>, size: nat): seq<Value> {
    if size > |arr| then arr + seq(size - |arr|, i => VNil) else arr
  }

  // The keys for the hash part, if the array part has the given size.
  ghost function HashKeys(m: Map, size: nat): set<Key> {
    set k | k in m && !InArray(k, size)
  }

  // The entries for the first slots of the array part.
  ghost function FirstPart(m: Map, size: nat): Map {
    map k | k in m && InArray(k, size) :: m[k]
  }

  ghost predicate Within(m: Map, om: Map) {
    forall k :: k in m ==> k in om && m[k] == om[k]
  }

  ghost predicate ArrayDone(arr: seq<Value>, m: Map, n: nat) {
    forall i :: 0 <= i < n && i < |arr| && arr[i] != VNil ==> KInt(i + 1) in m
  }

  ghost predicate NodesDone(nodes: seq<Node>, m: Map, j: nat) {
    forall i :: j <= i < |nodes| && nodes[i].val != VNil ==> nodes[i].key in m
  }

  lemma Restarted(oldarr: seq<Value>, oldnode: seq<Node>, om: Map, arr: seq<Value>, node: seq<Node>, m: Map)
    requires Content(oldarr, oldnode, om) && m == FirstPart(om, Least(|arr|, |oldarr|))
    requires arr == if |arr| <= |oldarr| then oldarr[..|arr|] else Grown(oldarr, |arr|)
    requires forall i :: 0 <= i < |node| ==> node[i].val == VNil
    ensures Content(arr, node, m) && Within(m, om) && ArrayDone(oldarr, m, Least(|arr|, |oldarr|))
  {
    forall k | k in m ensures Stored(arr, node, k, m[k]) { assert Stored(oldarr, oldnode, k, om[k]); }
  }

  lemma NoHashKeys(om: Map, size: nat)
    ensures |HashKeys(om, size)| == 0 ==> HashKeys(om, size) == {}
  {}

  lemma AllBack(oldarr: seq<Value>, oldnode: seq<Node>, om: Map, m: Map)
    requires Content(oldarr, oldnode, om) && Within(m, om) && ArrayDone(oldarr, m, |oldarr|) && NodesDone(oldnode, m, 0)
    ensures m == om
  {
    forall k | k in om ensures k in m { assert Stored(oldarr, oldnode, k, om[k]); }
  }

  lemma NodeEntry(oldarr: seq<Value>, oldnode: seq<Node>, om: Map, j: nat)
    requires Content(oldarr, oldnode, om) && Distinct(oldnode) && LiveHaveKeys(oldnode) && j < |oldnode| && oldnode[j].val != VNil
    ensures oldnode[j].key in om && om[oldnode[j].key] == oldnode[j].val && Normal(oldnode[j].key)
  {
    var k := oldnode[j].key;
    assert Stored(oldarr, oldnode, k, om[k]);
    var i :| 0 <= i < |oldnode| && oldnode[i].key == k && oldnode[i].val == om[k];
    assert i == j;
  }

  lemma {:induction false} AllKeys(nodes: seq<Node>)
    requires Distinct(nodes) && forall i :: 0 <= i < |nodes| ==> nodes[i].key != KNil
    ensures |Keys(nodes)| == |nodes|
    decreases |nodes|
  {
    if nodes == [] {
      assert Keys(nodes) == {};
    } else {
      var init, k := nodes[..|nodes| - 1], nodes[|nodes| - 1].key;
      assert Keys(nodes) == Keys(init) + {k} by {
        forall q | q in Keys(nodes) ensures q in Keys(init) + {k} {
          var i :| 0 <= i < |nodes| && nodes[i].key != KNil && nodes[i].key == q;
          if i < |nodes| - 1 { assert init[i].key == q; }
        }
        forall q | q in Keys(init) ensures q in Keys(nodes) {
          var i :| 0 <= i < |init| && init[i].key != KNil && init[i].key == q;
          assert nodes[i].key == q;
        }
      }
      AllKeys(init);
    }
  }

  // Fewer keys than nodes: some node is free.
  lemma RoomLeft(nodes: seq<Node>)
    requires Distinct(nodes) && |Keys(nodes)| < |nodes|
    ensures exists i :: 0 <= i < |nodes| && nodes[i].key == KNil
  {
    if forall i :: 0 <= i < |nodes| ==> nodes[i].key != KNil { AllKeys(nodes); }
  }

  lemma RoomFor(t: Table, k: Key, om: Map)
    requires t.Valid() && k in om && Keys(t.node) <= HashKeys(om, |t.arr|) && |HashKeys(om, |t.arr|)| <= |t.node|
    requires t.dummy ==> HashKeys(om, |t.arr|) == {}
    ensures t.Level(k) == 0
  {
    if !InArray(k, |t.arr|) && k !in Keys(t.node) {
      assert k in HashKeys(om, |t.arr|);
      SubsetSize(Keys(t.node), HashKeys(om, |t.arr|) - {k});
      RoomLeft(t.node);
    }
  }

  lemma RoomAfter(t: Table, k: Key, nhsize: nat)
    requires t.Valid() && Keys(t.node) <= HashKeys(t.m, |t.arr|) && |t.node| >= nhsize && (t.dummy ==> nhsize == 0)
    requires !InArray(k, |t.arr|) ==> k !in HashKeys(t.m, |t.arr|) && |HashKeys(t.m, |t.arr|) + {k}| <= nhsize
    ensures t.Level(k) == 0
  {
    if !InArray(k, |t.arr|) {
      SubsetSize(Keys(t.node), HashKeys(t.m, |t.arr|));
      RoomLeft(t.node);
    }
  }

  lemma NotThere(nodes: seq<Node>, k: Key)
    requires NoKey(nodes, k)
    ensures k !in Keys(nodes)
  {}

  // Nodes with values have keys.
  lemma LiveKeyed(h: Hashes, c: Chains)
    requires NodesOk(h, c)
    ensures LiveHaveKeys(c.nodes) && Distinct(c.nodes)
  {
    forall i | 0 <= i < |c.nodes| && c.nodes[i].val != VNil ensures c.nodes[i].key != KNil {
      assert c.nodes[i].key == KNil ==> FreeFrom(c, i, i);
    }
  }

  lemma NotInMap(arr: seq<Value>, nodes: seq<Node>, m: Map, k: Key)
    requires Content(arr, nodes, m) && !InArray(k, |arr|) && k !in Keys(nodes) && k != KNil
    ensures k !in m
  {
    assert k in m ==> Stored(arr, nodes, k, m[k]);
  }

  lemma InMap(arr: seq<Value>, nodes: seq<Node>, m: Map, k: Key)
    requires Content(arr, nodes, m)
    ensures InArray(k, |arr|) ==> (k in m <==> arr[k.n - 1] != VNil)
    ensures k in m ==> m[k] != VNil
    ensures !InArray(k, |arr|) && k in m ==> exists i :: 0 <= i < |nodes| && nodes[i].key == k
  {
    assert k in m ==> Stored(arr, nodes, k, m[k]);
    assert InArray(k, |arr|) ==> KInt(k.n - 1 + 1) == k;
  }

  lemma DummyFree(t: Table, i: nat)
    requires t.NodesValid() && i < |t.node| && t.node[i].key != KNil
    ensures !t.dummy
  {}

  lemma FoundNormal(t: Table, k: Key, c: Cell)
    requires t.NodesValid() && c != NoCell && (k != KNil ==> t.CellFor(Normalize(k), c)) && (k == KNil ==> c == NoCell)
    ensures Normal(Normalize(k))
  {}

  // --------------------------------------------------------------------- sizes for keys

  lemma {:induction false} IntKeys(N: set<nat>)
    ensures |set n | n in N :: KInt(n)| == |N|
    decreases |N|
  {
    if N == {} {
      assert (set n | n in N :: KInt(n)) == {};
    } else {
      var x :| x in N;
      IntKeys(N - {x});
      assert (set n | n in N :: KInt(n)) == (set n | n in N - {x} :: KInt(n)) + {KInt(x)};
    }
  }

  lemma CountedApart(arr: seq<Value>, nodes: seq<Node>, m: Map, k: Key)
    requires Content(arr, nodes, m) && |arr| <= MAXASIZE && k !in m
    ensures InUse(arr, 0, |arr|) !! IntOf(LiveKeys(nodes, 0))
    ensures Candidate(k) ==> k.n !in InUse(arr, 0, |arr|) + IntOf(LiveKeys(nodes, 0))
  {
    forall n | n in InUse(arr, 0, |arr|) ensures KInt(n) in m { assert KInt(n - 1 + 1) in m; }
  }

  lemma IntOfUnion(X: set<Key>, Y: set<Key>)
    ensures IntOf(X + Y) == IntOf(X) + IntOf(Y) && (X !! Y ==> IntOf(X) !! IntOf(Y))
  {}

  lemma IntOfInts(A: set<nat>)
    requires forall n :: n in A ==> 0 < n <= MAXASIZE
    ensures IntOf(set n | n in A :: KInt(n)) == A
  {
    forall n | n in A ensures n in IntOf(set n | n in A :: KInt(n)) { assert KInt(n) in (set n | n in A :: KInt(n)); }
  }

  lemma CountedAll(arr: seq<Value>, nodes: seq<Node>, m: Map, k: Key)
    requires Content(arr, nodes, m) && |arr| <= MAXASIZE && k !in m
    ensures var A := InUse(arr, 0, |arr|);
      var L := LiveKeys(nodes, 0);
      && A + IntOf(L) + IntOf({k}) == IntOf(m.Keys + {k}) && |A| + |L| == |m.Keys|
      && |A| + |IntOf(L)| + |IntOf({k})| == |IntOf(m.Keys + {k})|
  {
    hide Content, LiveKeys, IntOf;
    var A, L := InUse(arr, 0, |arr|), LiveKeys(nodes, 0);
    var K := set n | n in A :: KInt(n);
    KeysParts(arr, nodes, m);
    IntKeys(A);
    IntOfInts(A);
    IntOfUnion(K, L);
    IntOfUnion(m.Keys, {k});
  }

  // The keys of the two parts.
  lemma KeysParts(arr: seq<Value>, nodes: seq<Node>, m: Map)
    requires Content(arr, nodes, m)
    ensures var K := set n | n in InUse(arr, 0, |arr|) :: KInt(n);
      K + LiveKeys(nodes, 0) == m.Keys && K !! LiveKeys(nodes, 0)
  {
    var K := set n | n in InUse(arr, 0, |arr|) :: KInt(n);
    forall q | q in m.Keys ensures q in K + LiveKeys(nodes, 0) {
      assert Stored(arr, nodes, q, m[q]);
      if InArray(q, |arr|) {
        assert q.n in InUse(arr, 0, |arr|);
      } else {
        var i :| 0 <= i < |nodes| && nodes[i].key == q && nodes[i].val == m[q];
      }
    }
    forall q | q in K ensures q in m.Keys && q !in LiveKeys(nodes, 0) {
      assert arr[q.n - 1] != VNil && KInt(q.n - 1 + 1) in m;
    }
  }

  lemma OptimalSmall(S: set<nat>, size: nat)
    requires Optimal(S, size) && |S| <= Pow2(30)
    ensures size <= MAXASIZE
  {
    if size > 0 {
      SubsetSize(UpTo(S, size), S);
      Pow2At();
    }
  }

  // The keys that do not go to the array part.
  lemma HashCount(K: set<Key>, size: nat)
    requires size <= MAXASIZE
    ensures |set k | k in K && !InArray(k, size)| == |K| - |UpTo(IntOf(K), size)|
  {
    var U := UpTo(IntOf(K), size);
    var I := set n | n in U :: KInt(n);
    var H := set k | k in K && !InArray(k, size);
    IntKeys(U);
    forall k | k in K ensures k in I + H {
      if InArray(k, size) { assert k.n in U; }
    }
    assert I + H == K && I !! H;
  }

  lemma HashKeysGrow(m: Map, k: Key, size: nat)
    requires k !in m
    ensures var H := set q | q in m.Keys + {k} && !InArray(q, size);
      && |m.Keys + {k}| == |m.Keys| + 1 && |HashKeys(m, size)| <= |H| && k !in HashKeys(m, size)
      && (!InArray(k, size) ==> |HashKeys(m, size) + {k}| == |H|)
  {
    var H := set q | q in m.Keys + {k} && !InArray(q, size);
    if InArray(k, size) {
      assert H == HashKeys(m, size);
    } else {
      assert H == HashKeys(m, size) + {k};
    }
  }

  lemma WriteArray(arr: seq<Value>, nodes: seq<Node>, m: Map, i: nat, v: Value)
    requires Content(arr, nodes, m) && i < |arr|
    ensures Content(arr[i := v], nodes, Assigned(m, KInt(i + 1), v))
  {
    var m' := Assigned(m, KInt(i + 1), v);
    forall k | k in m' ensures Normal(k) && m'[k] != VNil && Stored(arr[i := v], nodes, k, m'[k]) {
      if k != KInt(i + 1) { assert Stored(arr, nodes, k, m[k]); }
    }
  }

  lemma WriteNode(h: Hashes, c: Chains, arr: seq<Value>, m: Map, i: nat, v: Value)
    requires NodesOk(h, c) && Content(arr, c.nodes, m) && i < |c.nodes| && c.nodes[i].key != KNil && !InArray(c.nodes[i].key, |arr|) && Normal(c.nodes[i].key)
    ensures var nodes' := c.nodes[i := c.nodes[i].(val := v)];
      && NodesOk(h, c.(nodes := nodes')) && Content(arr, nodes', Assigned(m, c.nodes[i].key, v)) && Keys(nodes') == Keys(c.nodes)
  {
    hide Linked, Homes, Distinct, Content, Keys, Assigned;
    WriteNodeOk(h, c, i, v);
    WriteNodeContent(arr, c.nodes, m, i, v);
    WriteNodeKeys(c.nodes, i, v);
  }

  lemma WriteNodeKeys(nodes: seq<Node>, i: nat, v: Value)
    requires i < |nodes|
    ensures Keys(nodes[i := nodes[i].(val := v)]) == Keys(nodes)
  {
    var nodes' := nodes[i := nodes[i].(val := v)];
    forall q | q in Keys(nodes) ensures q in Keys(nodes') {
      var j :| 0 <= j < |nodes| && nodes[j].key != KNil && nodes[j].key == q;
      assert nodes'[j].key == q;
    }
  }

  lemma WriteNodeOk(h: Hashes, c: Chains, i: nat, v: Value)
    requires NodesOk(h, c) && i < |c.nodes| && c.nodes[i].key != KNil
    ensures NodesOk(h, c.(nodes := c.nodes[i := c.nodes[i].(val := v)]))
  {
    hide Linear, Steps, FreeAlone;
    var c' := c.(nodes := c.nodes[i := c.nodes[i].(val := v)]);
    WriteNodeLinked(c, i, v);
    forall j | 0 <= j < |c'.nodes| && c'.nodes[j].key != KNil ensures Home(h, c', j) { assert Home(h, c, j); }
  }

  lemma WriteNodeLinked(c: Chains, i: nat, v: Value)
    requires Linked(c) && i < |c.nodes| && c.nodes[i].key != KNil
    ensures Linked(c.(nodes := c.nodes[i := c.nodes[i].(val := v)]))
  {
    var c' := c.(nodes := c.nodes[i := c.nodes[i].(val := v)]);
    forall j | 0 <= j < |c'.nodes| && c'.nodes[j].next != 0 ensures StepOk(c', j) { assert StepOk(c, j); }
    forall j, l | 0 <= j < |c'.nodes| && 0 <= l < |c'.nodes| ensures PairOk(c', j, l) { assert PairOk(c, j, l); }
    forall j, l | 0 <= j < |c'.nodes| && 0 <= l < |c'.nodes| && c'.nodes[j].key == KNil ensures FreeFrom(c', j, l) { assert FreeFrom(c, j, l); }
  }

  lemma WriteNodeContent(arr: seq<Value>, nodes: seq<Node>, m: Map, i: nat, v: Value)
    requires Distinct(nodes) && Content(arr, nodes, m) && i < |nodes| && nodes[i].key != KNil && !InArray(nodes[i].key, |arr|) && Normal(nodes[i].key)
    ensures Content(arr, nodes[i := nodes[i].(val := v)], Assigned(m, nodes[i].key, v))
  {
    var nodes', m' := nodes[i := nodes[i].(val := v)], Assigned(m, nodes[i].key, v);
    forall k | k in m' ensures Normal(k) && m'[k] != VNil && Stored(arr, nodes', k, m'[k]) {
      if k == nodes[i].key {
        HasAt(nodes', i);
      } else {
        assert Stored(arr, nodes, k, m[k]);
        if !InArray(k, |arr|) {
          var j :| 0 <= j < |nodes| && nodes[j].key == k && nodes[j].val == m[k];
          HasAt(nodes', j);
        }
      }
    }
    forall j | 0 <= j < |nodes'| && nodes'[j].val != VNil ensures nodes'[j].key in m' && !InArray(nodes'[j].key, |arr|) {
      if j != i { assert nodes[j].key in m; }
    }
  }

  // Growing the array part alone keeps the map if and only if no key of the hash part is
  // in the new range.
  lemma GrowthHides(arr: seq<Value>, nodes: seq<Node>, m: Map, size: nat)
    requires Content(arr, nodes, m)
    ensures Content(Grown(arr, size), nodes, m) <==> forall q :: q in m && InArray(q, size) ==> InArray(q, |arr|)
  {
    var arr' := Grown(arr, size);
    if forall q :: q in m && InArray(q, size) ==> InArray(q, |arr|) {
      forall k | k in m ensures Stored(arr', nodes, k, m[k]) { assert Stored(arr, nodes, k, m[k]); }
    } else {
      var q :| q in m && InArray(q, size) && !InArray(q, |arr|);
      assert Stored(arr, nodes, q, m[q]);
      var i :| 0 <= i < |nodes| && nodes[i].key == q && nodes[i].val == m[q];
    }
  }

  lemma FailedHides(t: Table, om: Map, oldarr: seq<Value>, oldnode: seq<Node>, k: Key, na: nat, limit: Memory)
    requires Content(oldarr, oldnode, om) && t.OnlyGrown(om, oldarr, oldnode) && Optimal(IntOf(om.Keys + {k}), na)
    requires |t.arr| == AfterFailure(na, |oldarr|, limit) && |oldarr| <= MAXASIZE && na <= MAXASIZE
    ensures t.Failed(om, oldarr, oldnode, k, limit)
  {
    hide Content, Optimal, Linked, Homes, IntOf;
    GrowthHides(oldarr, oldnode, om, |t.arr|);
    forall na': nat | Optimal(IntOf(om.Keys + {k}), na') ensures na' == na { OptimalUnique(IntOf(om.Keys + {k}), na, na'); }
  }

  // After a failed allocation every key but the hidden ones has its value, and those have
  // none.
  lemma FailedValue(t: Table, oldarr: seq<Value>, q: Key, c: Cell)
    requires Content(oldarr, t.node, t.m) && t.NodesValid() && t.arr == Grown(oldarr, |t.arr|)
    requires t.CellFor(q, c) && q != KNil
    ensures t.At(c) == if q in t.m && (InArray(q, |t.arr|) ==> InArray(q, |oldarr|)) then t.m[q] else VNil
  {
    hide Linked, Homes;
    if q in t.m {
      assert Stored(oldarr, t.node, q, t.m[q]);
      if c.NodeCell? {
        var j :| 0 <= j < |t.node| && t.node[j].key == q && t.node[j].val == t.m[q];
        assert j == c.i;
      }
    }
  }
}
