// The sizes of the parts of a table (ltable.c): counting integer keys by slices between
// powers of two, and choosing the size of the array part.

module TableSizes {
  const MAXABITS: nat := 31
  const MAXASIZE: nat := 0x8000_0000
  const MAXHBITS: nat := 30
  const UINT: nat := 0x1_0000_0000  // unsigned integers wrap around here

  function Pow2(n: nat): (p: nat)
    ensures p > 0
  {
    if n == 0 then 1 else 2 * Pow2(n - 1)
  }

  lemma {:induction false} Pow2Mono(i: nat, j: nat)
    requires i <= j
    ensures Pow2(i) <= Pow2(j)
    decreases j
  {
    if i < j { Pow2Mono(i, j - 1); }
  }

  lemma Pow2At()
    ensures Pow2(8) == 256 && Pow2(30) == 0x4000_0000 && Pow2(31) == MAXASIZE && Pow2(32) == UINT
  {
    assert Pow2(4) == 16;
    assert Pow2(8) == 256;
    assert Pow2(12) == 4096;
    assert Pow2(16) == 65536;
    assert Pow2(20) == 0x10_0000;
    assert Pow2(24) == 0x100_0000;
    assert Pow2(28) == 0x1000_0000;
  }

  // l is the logarithm of x to base 2, rounded up.
  predicate IsCeilLog2(x: nat, l: nat) {
    x <= Pow2(l) && (l > 0 ==> Pow2(l - 1) < x)
  }

  lemma CeilLog2Unique(x: nat, l: nat, l': nat)
    requires IsCeilLog2(x, l) && IsCeilLog2(x, l')
    ensures l == l'
  {
    if l < l' { Pow2Mono(l, l' - 1); }
    if l' < l { Pow2Mono(l', l - 1); }
  }

  // The entries of the table log_2: 0,1,2,2,3,3,3,3,4,...
  function Log2Table(i: nat): nat
    requires i < 256
  {
    if i < 1 then 0 else if i < 2 then 1 else if i < 4 then 2 else if i < 8 then 3 else if i < 16 then 4
    else if i < 32 then 5 else if i < 64 then 6 else if i < 128 then 7 else 8
  }

  lemma TableIsLog(i: nat)
    requires i < 256
    ensures IsCeilLog2(i + 1, Log2Table(i))
  {
    assert Pow2(0) == 1 && Pow2(1) == 2 && Pow2(2) == 4 && Pow2(3) == 8 && Pow2(4) == 16;
    assert Pow2(5) == 32 && Pow2(6) == 64 && Pow2(7) == 128 && Pow2(8) == 256;
  }

  // Shifting eight bits out takes eight off the logarithm.
  lemma ShiftLog(x: nat, l: nat)
    requires IsCeilLog2(x / 256 + 1, l) && l > 0
    ensures IsCeilLog2(x + 1, l + 8)
  {
    Pow2Add8(l);
    Pow2Add8(l - 1);
  }

  lemma Pow2Add8(l: nat)
    ensures Pow2(l + 8) == 256 * Pow2(l)
  {
    assert Pow2(l + 4) == 16 * Pow2(l) by { assert Pow2(l + 2) == 4 * Pow2(l); }
    assert Pow2(l + 8) == 16 * Pow2(l + 4) by { assert Pow2(l + 6) == 4 * Pow2(l + 4); }
  }

  lemma {:induction false} ShiftedLog(x: nat, x': nat, l: nat)
    requires x' == Shifted(x, l) && x' < 256 && (l > 0 ==> x' > 0)
    ensures IsCeilLog2(x + 1, 8 * l + Log2Table(x'))
    decreases l
  {
    if l == 0 {
      TableIsLog(x);
    } else {
      ShiftedLog(x / 256, x', l - 1);
      ShiftLog(x, 8 * (l - 1) + Log2Table(x'));
    }
  }

  // x with l bytes shifted out.
  function Shifted(x: nat, l: nat): nat
    decreases l
  {
    if l == 0 then x else Shifted(x / 256, l - 1)
  }

  lemma {:induction false} ShiftedMore(x: nat, l: nat)
    ensures Shifted(x, l + 1) == Shifted(x, l) / 256
    decreases l
  {
    if l > 0 { ShiftedMore(x / 256, l - 1); }
  }

  // luaO_ceillog2.
  method CeilLog2(x: nat) returns (r: nat)
    requires x > 0
    ensures IsCeilLog2(x, r)
  {
    var l := 0;
    var y := x - 1;
    ghost var n := 0;
    while y >= 256
      invariant y == Shifted(x - 1, n) && l == 8 * n && (n > 0 ==> y > 0)
    {
      ShiftedMore(x - 1, n);
      l := l + 8;
      y := y / 256;  // >> 8
      n := n + 1;
    }
    ShiftedLog(x - 1, y, n);
    r := l + Log2Table(y);
  }

  // ------------------------------------------------------------------------ counting

  // The elements of S in lo + 1 .. hi.
  ghost function Between(S: set<nat>, lo: nat, hi: nat): set<nat> {
    set n | n in S && lo < n <= hi
  }

  ghost function UpTo(S: set<nat>, hi: nat): set<nat> {
    Between(S, 0, hi)
  }

  // Slice i has the keys above the half of 2^i, up to 2^i.
  ghost function Slice(S: set<nat>, i: nat): set<nat> {
    Between(S, if i == 0 then 0 else Pow2(i - 1), Pow2(i))
  }

  // nums[i] is the number of keys of S in slice i.
  ghost predicate Counts(nums: seq<nat>, S: set<nat>) {
    && |nums| == MAXABITS + 1
    && forall i :: 0 <= i <= MAXABITS ==> nums[i] == |Slice(S, i)|
  }

  lemma SliceAdd(S: set<nat>, k: nat, l: nat, i: nat)
    requires k !in S && k > 0 && IsCeilLog2(k, l)
    ensures |Slice(S + {k}, i)| == |Slice(S, i)| + (if i == l then 1 else 0)
  {
    if i == l {
      assert Slice(S + {k}, i) == Slice(S, i) + {k};
    } else {
      if k in Slice(S + {k}, i) { CeilLog2Unique(k, l, i); }
      assert Slice(S + {k}, i) == Slice(S, i);
    }
  }

  lemma CountsAdd(nums: seq<nat>, S: set<nat>, k: nat, l: nat)
    requires Counts(nums, S) && k !in S && 0 < k <= MAXASIZE && IsCeilLog2(k, l)
    ensures l <= MAXABITS && Counts(nums[l := nums[l] + 1], S + {k})
  {
    Pow2At();
    if l > MAXABITS { Pow2Mono(MAXABITS, l - 1); }
    forall i | 0 <= i <= MAXABITS ensures nums[l := nums[l] + 1][i] == |Slice(S + {k}, i)| { SliceAdd(S, k, l, i); }
  }

  // Adding elements D that all lie in slice l.
  lemma CountsSlice(nums: seq<nat>, S: set<nat>, D: set<nat>, l: nat)
    requires Counts(nums, S) && S !! D && l <= MAXABITS && forall n :: n in D ==> n > 0 && IsCeilLog2(n, l)
    ensures Counts(nums[l := nums[l] + |D|], S + D)
  {
    forall i | 0 <= i <= MAXABITS ensures nums[l := nums[l] + |D|][i] == |Slice(S + D, i)| {
      if i == l {
        assert Slice(S + D, i) == Slice(S, i) + D;
      } else {
        forall n | n in D ensures n !in Slice(S + D, i) { if n in Slice(S + D, i) { CeilLog2Unique(n, l, i); } }
        assert Slice(S + D, i) == Slice(S, i);
      }
    }
  }

  lemma CountsNone(nums: seq<nat>)
    requires |nums| == MAXABITS + 1 && forall i :: 0 <= i < |nums| ==> nums[i] == 0
    ensures Counts(nums, {})
  {
    forall i: nat ensures Slice({}, i) == {} {}
  }

  lemma UpToNext(S: set<nat>, i: nat)
    ensures |UpTo(S, Pow2(i))| == |Slice(S, i)| + (if i == 0 then 0 else |UpTo(S, Pow2(i - 1))|)
  {
    if i == 0 {
      assert UpTo(S, Pow2(0)) == Slice(S, 0);
    } else {
      assert UpTo(S, Pow2(i)) == UpTo(S, Pow2(i - 1)) + Slice(S, i);
    }
  }

  // At most n numbers from 1 to n.
  lemma {:induction false} UpToBound(S: set<nat>, n: nat)
    ensures |UpTo(S, n)| <= n
    decreases n
  {
    if n == 0 {
      assert UpTo(S, 0) == {};
    } else {
      UpToBound(S, n - 1);
      assert UpTo(S, n) <= UpTo(S, n - 1) + {n};
      SubsetSize(UpTo(S, n), UpTo(S, n - 1) + {n});
    }
  }

  lemma {:induction false} SubsetSize<T>(a: set<T>, b: set<T>)
    requires a <= b
    ensures |a| <= |b|
    decreases |a|
  {
    if a != {} {
      var x :| x in a;
      SubsetSize(a - {x}, b - {x});
    }
  }

  // ------------------------------------------------------------------ the optimal size

  // More than half of the slots 1..n would be in use.
  ghost predicate Dense(S: set<nat>, n: nat) {
    2 * |UpTo(S, n)| > n
  }

  // The size of the array part: the largest power of two that is dense, or none.
  ghost predicate Optimal(S: set<nat>, size: nat) {
    && (size == 0 || exists i: nat :: size == Pow2(i) && Dense(S, size))
    && forall i: nat :: Dense(S, Pow2(i)) ==> Pow2(i) <= size
  }

  lemma {:induction false} DenseSmall(S: set<nat>, i: nat, j: nat)
    requires i <= j && |S| <= Pow2(i) / 2
    ensures !Dense(S, Pow2(j))
  {
    SubsetSize(UpTo(S, Pow2(j)), S);
    Pow2Mono(i, j);
  }

  // The best size among the powers of two below 2^i.
  ghost predicate Best(S: set<nat>, i: nat, optimal: nat) {
    && (optimal == 0 || exists j: nat :: j < i && optimal == Pow2(j) && Dense(S, optimal))
    && forall j: nat :: j < i && Dense(S, Pow2(j)) ==> Pow2(j) <= optimal
  }

  lemma BestTake(S: set<nat>, i: nat, optimal: nat)
    requires Best(S, i, optimal) && Dense(S, Pow2(i))
    ensures Best(S, i + 1, Pow2(i))
  {
    forall j: nat | j < i + 1 ensures Pow2(j) <= Pow2(i) { Pow2Mono(j, i); }
  }

  lemma BestKeep(S: set<nat>, i: nat, optimal: nat)
    requires Best(S, i, optimal) && !Dense(S, Pow2(i))
    ensures Best(S, i + 1, optimal)
  {}

  // An empty slice does not make a size dense.
  lemma EmptySlice(S: set<nat>, i: nat)
    requires |Slice(S, i)| == 0
    ensures !Dense(S, Pow2(i))
  {
    UpToNext(S, i);
    if i > 0 { UpToBound(S, Pow2(i - 1)); }
  }

  lemma BestIsOptimal(S: set<nat>, i: nat, optimal: nat)
    requires Best(S, i, optimal) && |S| <= Pow2(i) / 2
    ensures Optimal(S, optimal)
  {
    forall j: nat | Dense(S, Pow2(j)) ensures Pow2(j) <= optimal {
      if j >= i { DenseSmall(S, i, j); }
    }
  }

  // The index at which the loop of computesizes stops, when it has come to i ('twotoi' is an
  // unsigned number). There are counters for 0 to MAXABITS only.
  function LoopEnd(pna: nat, i: nat): nat
    requires i <= MAXABITS + 1
    decreases MAXABITS + 1 - i
  {
    if i <= MAXABITS && pna > Pow2(i) % UINT / 2 then LoopEnd(pna, i + 1) else i
  }

  lemma LoopStep(pna: nat, i: nat, twotoi: nat)
    requires i <= MAXABITS && twotoi == Pow2(i) < UINT
    ensures LoopEnd(pna, i) == if pna > twotoi / 2 then LoopEnd(pna, i + 1) else i
  {}

  // computesizes: with at most 2^30 keys in all, 'twotoi' does not wrap around.
  method ComputeSizes(nums: seq<nat>, pna: nat, ghost S: set<nat>) returns (optimal: nat, na: nat, ghost end: nat)
    requires Counts(nums, S) && pna == |S| <= Pow2(30)
    ensures Optimal(S, optimal) && na == |UpTo(S, optimal)| && end == LoopEnd(pna, 0) <= MAXABITS
  {
    hide Best, Dense, Slice, UpTo, LoopEnd;
    var i, twotoi := 0, 1;
    var a := 0;
    na, optimal := 0, 0;
    assert Best(S, 0, 0) && |UpTo(S, 0)| == 0 by { Nothing(S); }
    while pna > twotoi / 2
      invariant 0 <= i <= MAXABITS && twotoi == Pow2(i) < UINT && a == (if i == 0 then 0 else |UpTo(S, Pow2(i - 1))|)
      invariant Best(S, i, optimal) && na == |UpTo(S, optimal)|
      invariant LoopEnd(pna, 0) == LoopEnd(pna, i)
      decreases MAXABITS + 1 - i
    {
      UpToNext(S, i);
      HalfDense(S, i);
      if nums[i] > 0 {
        a := a + nums[i];
        if a > twotoi / 2 {
          BestTake(S, i, optimal);
          optimal := twotoi;
          na := a;
        } else {
          BestKeep(S, i, optimal);
        }
      } else {
        EmptySlice(S, i);
        BestKeep(S, i, optimal);
      }
      TwotoiFits(i, pna);
      LoopStep(pna, i, twotoi);
      i := i + 1;
      twotoi := twotoi * 2 % UINT;
    }
    BestIsOptimal(S, i, optimal);
    LoopStep(pna, i, twotoi);
    end := i;
  }

  lemma Nothing(S: set<nat>)
    ensures Best(S, 0, 0) && |UpTo(S, 0)| == 0
  {
    assert UpTo(S, 0) == {};
  }

  // The loop comes to i == 32, past the counters, if and only if there are more keys: then
  // 'twotoi' has wrapped around to zero.
  lemma TwotoiWraps(pna: nat)
    ensures LoopEnd(pna, 0) == MAXABITS + 1 <==> pna > Pow2(30)
    ensures LoopEnd(Pow2(30) + 1, 0) == MAXABITS + 1
  {
    LoopStops(pna, 0);
    LoopStops(Pow2(30) + 1, 0);
  }

  lemma {:induction false} LoopStops(pna: nat, i: nat)
    requires i <= MAXABITS
    ensures LoopEnd(pna, i) == MAXABITS + 1 <==> pna > Pow2(30)
    decreases MAXABITS - i
  {
    Pow2At();
    Pow2Mono(i, 31);
    assert Pow2(31) % UINT / 2 == Pow2(30);
    if i < MAXABITS {
      assert Pow2(i) % UINT / 2 <= Pow2(30);
      LoopStops(pna, i + 1);
    }
  }

  lemma HalfDense(S: set<nat>, i: nat)
    ensures |UpTo(S, Pow2(i))| > Pow2(i) / 2 <==> Dense(S, Pow2(i))
  {}

  lemma TwotoiFits(i: nat, pna: nat)
    requires i <= MAXABITS && Pow2(i) / 2 < pna <= Pow2(30)
    ensures i < MAXABITS && Pow2(i) * 2 == Pow2(i + 1) < UINT
  {
    Pow2At();
    if i < MAXABITS { Pow2Mono(i + 1, 31); }
  }
}
