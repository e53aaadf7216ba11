// Compiling expressions: 'and', 'or' and the recursion over the operands (lcode.c, lparser.c).

module ExpCode {
  import opened Common
  import opened LuaVM
  import opened JumpCode
  import opened CodeState
  import opened FrameSize
  import opened CodeGen
  import opened ExpMeaning
  import opened LuaK
  import opened CondCode

  // ------------------------------------------------------------------------ 'and', 'or'

  // The value of 'a and b', 'a or b'.
  function Joined(isAnd: bool, v: Option<Value>, w: Option<Value>): Option<Value> {
    match v
    case None => None
    case Some(x) => if IsFalse(x) == isAnd then v else w
  }

  // The second operand follows: m1 and m2 are the meanings of the operands.
  ghost predicate Continues(s1: Code, m1: Meaning, m2: Meaning) {
    m2 == m1.(o0 := Out(s1, m1.env, m1.r), v := m2.v) && m1.lo <= m1.dst
  }

  function JoinT(isAnd: bool, T: seq<nat>, xs: seq<nat>): seq<nat> { if isAnd then T else T + xs }
  function JoinF(isAnd: bool, F: seq<nat>, xs: seq<nat>): seq<nat> { if isAnd then F + xs else F }

  lemma JoinedMeans(s1: Code, s2: Code, s3: Code, e: ExpDesc, e': ExpDesc, T: seq<nat>, F: seq<nat>, xs: seq<nat>, isAnd: bool, m1: Meaning, m2: Meaning)
    requires Conds(s1, xs, isAnd, m1) && Continues(s1, m1, m2) && Means(s2, e, T, F, m2)
    requires Out(Ground(s3, e'), m1.env, m1.r) == Out(Ground(s2, e), m1.env, m1.r) && e' == e.(t := e'.t, f := e'.f)
    requires forall r: Regs :: KindValue(s3.code, e, m1.env, r) == KindValue(s2.code, e, m1.env, r)
    requires ValuesKept(s2.code, s3.code) && forall j :: j in xs ==> KeepsJump(s1.code, s2.code, j)
    requires Proper(m1) && (m1.o0.Exit? ==> m1.o0.j !in xs)
    ensures Means(s3, e', JoinT(isAnd, T, xs), JoinF(isAnd, F, xs), m1.(v := Joined(isAnd, m1.v, m2.v)))
  {
    hide Ground, Out, ValuesKept, Members, HasValue;
    JoinMembers(isAnd, T, F, xs);
    ExitsKept(s1, s2, s3, T, F, xs);
  }

  lemma JoinMembers(isAnd: bool, T: seq<nat>, F: seq<nat>, xs: seq<nat>)
    ensures forall j :: j in Members(JoinT(isAnd, T, xs)) <==> j in Members(T) || (!isAnd && j in xs)
    ensures forall j :: j in Members(JoinF(isAnd, F, xs)) <==> j in Members(F) || (isAnd && j in xs)
    ensures forall j :: (j in T <==> j in Members(T)) && (j in F <==> j in Members(F)) && (j in xs <==> j in Members(xs))
  {}

  lemma ExitsKept(s1: Code, s2: Code, s3: Code, T: seq<nat>, F: seq<nat>, xs: seq<nat>)
    requires ValuesKept(s2.code, s3.code) && forall j :: j in xs ==> KeepsJump(s1.code, s2.code, j)
    ensures forall j: nat, b: bool, r: Regs :: ExitValue(s3.code, j, b, r) == ExitValue(s2.code, j, b, r)
    ensures forall j: nat, b: bool, r: Regs :: j in xs ==> ExitValue(s3.code, j, b, r) == ExitValue(s1.code, j, b, r)
  {}

  // Linking a list of the expression to another one.
  lemma LinkedGround(s: Code, code': seq<Instr>, L: seq<nat>, e: ExpDesc, env: Env, r: Regs)
    requires WF(s) && Linked(s, code', L) && Members(L) <= s.pend
    requires e.k.VReloc? ==> EndsPlain(s) && e.info == |s.code| - 1 && Relocatable(s.code[e.info])
    ensures var s' := s.(code := code');
      && WF(s') && Out(Ground(s', e), env, r) == Out(Ground(s, e), env, r)
      && (e.k.VReloc? ==> EndsPlain(s') && code'[e.info] == s.code[e.info])
  {
    hide Shape, Exec, Here;
    var s' := s.(code := code');
    LinkedFrame(s, code', L);
    RelinkOut(s, code', env, r);
    if e.k.VReloc? {
      var n := |s.code| - 1;
      forall x | x in L ensures x < n { assert x in Members(L) && x in All(s) && JumpIn(s, x); }
      if L != [] { assert L[|L| - 1] in L; }
      PlainOut(s, env, r);
      LinkedBefore(s, code', L, n, env, r);
    }
  }

  lemma LinkedBefore(s: Code, code': seq<Instr>, L: seq<nat>, n: nat, env: Env, r: Regs)
    requires n <= |s.code| && WF(Before(s, n)) && Linked(s, code', L) && Members(L) <= s.pend && forall x :: x in L ==> x < n
    ensures Out(Before(s.(code := code'), n), env, r) == Out(Before(s, n), env, r)
  {
    var b := Before(s, n);
    forall i | 0 <= i < n && code'[..n][i] != b.code[i] ensures i in All(b) && code'[..n][i].Jmp? {
      assert L != [] && i == L[|L| - 1] && i in L && i in Members(L);
    }
    RelinkOut(b, code'[..n], env, r);
  }

  lemma LinkedShape(s: Code, code': seq<Instr>, L: seq<nat>, k: seq<Value>, nactvar: nat, freereg: nat, e: ExpDesc)
    requires WF(s) && Linked(s, code', L) && Members(L) <= s.pend && ExpShape(s, k, nactvar, freereg, e) && (e.k.VJmp? ==> e.info !in L)
    ensures ExpShape(s.(code := code'), k, nactvar, freereg, e)
  {
    LinkedGround(s, code', L, e, Env([], []), []);
    forall x | x in L ensures x < |s.code| && s.code[x].Jmp? { assert x in Members(L) && x in All(s) && JumpIn(s, x); }
    if L != [] { assert L[|L| - 1] in L; }
  }

  ghost predicate Disjoint(e: ExpDesc, T: seq<nat>, F: seq<nat>, xs: seq<nat>) {
    Members(xs) !! Own(e, T, F)
  }

  lemma JoinOk(s: Code, code': seq<Instr>, e: ExpDesc, e': ExpDesc, T: seq<nat>, F: seq<nat>, xs: seq<nat>, isAnd: bool,
               k: seq<Value>, nactvar: nat, freereg: nat)
    requires WF(s) && ExpOk(s, k, nactvar, freereg, e, T, F) && NoDup(xs) && Members(xs) <= s.pend && Disjoint(e, T, F, xs)
    requires Linked(s, code', if isAnd then F else T) && e' == e.(t := e'.t, f := e'.f)
    requires if isAnd then e'.t == e.t && IsList(code', e'.f, F + xs) else e'.f == e.f && IsList(code', e'.t, T + xs)
    ensures ExpOk(s.(code := code'), k, nactvar, freereg, e', JoinT(isAnd, T, xs), JoinF(isAnd, F, xs))
    ensures Own(e', JoinT(isAnd, T, xs), JoinF(isAnd, F, xs)) == Own(e, T, F) + Members(xs)
    ensures Frame(s, s.(code := code'), Own(e, T, F) + Members(xs), Own(e, T, F) + Members(xs))
  {
    hide WF, ExpShape, IsList, NoDup, Frame, Relinked, Linked;
    var L := if isAnd then F else T;
    OwnPending(s, k, nactvar, freereg, e, T, F);
    LinkedFrame(s, code', L);
    ShapeAgain(s.(code := code'), k, nactvar, freereg, e, e');
    LinkedShape(s, code', L, k, nactvar, freereg, e);
    if isAnd {
      LinkedLists(s, code', F, e.t, T);
      NoDupJoin(F, xs);
    } else {
      LinkedLists(s, code', T, e.f, F);
      NoDupJoin(T, xs);
    }
    FrameWider(s, s.(code := code'), Members(L), Own(e, T, F) + Members(xs));
  }

  lemma ShapeAgain(s: Code, k: seq<Value>, nactvar: nat, freereg: nat, e: ExpDesc, e': ExpDesc)
    requires e' == e.(t := e'.t, f := e'.f)
    ensures ExpShape(s, k, nactvar, freereg, e') <==> ExpShape(s, k, nactvar, freereg, e)
  {}

  lemma NoDupJoin(xs: seq<nat>, ys: seq<nat>)
    requires NoDup(xs) && NoDup(ys) && Members(xs) !! Members(ys)
    ensures NoDup(xs + ys) && Members(xs + ys) == Members(xs) + Members(ys)
  {
    forall i, j | 0 <= i < j < |xs + ys| ensures (xs + ys)[i] != (xs + ys)[j] {
      if i < |xs| <= j { assert xs[i] in Members(xs) && ys[j - |xs|] in Members(ys); }
    }
  }

  lemma FrameWider(s: Code, s': Code, own: set<nat>, more: set<nat>)
    requires Frame(s, s', own, own) && own <= more <= s.pend
    ensures Frame(s, s', more, more)
  {}

  // luaK_posfix for 'and' and 'or': the jumps xs, of the list l, leave the first operand.
  method Join(fs: FuncState, isAnd: bool, l: int, e: ExpDesc, ghost T: seq<nat>, ghost F: seq<nat>, ghost xs: seq<nat>,
              ghost s1: Code, ghost m1: Meaning, ghost m2: Meaning) returns (ok: bool, e': ExpDesc)
    requires fs.Valid() && Exp(fs, e, T, F) && Computes(fs, e, T, F, m2) && Continues(s1, m1, m2)
    requires fs.k <= m1.env.k ==> Conds(s1, xs, isAnd, m1)
    requires IsList(fs.code, l, xs) && NoDup(xs) && Members(xs) <= fs.pend && Disjoint(e, T, F, xs)
    requires forall j :: j in xs ==> KeepsJump(s1.code, fs.code, j)
    requires Proper(m1) && (m1.o0.Exit? ==> m1.o0.j !in xs)
    modifies fs`code, fs`jpc, fs`jumps
    ensures !ok ==> fs.AtLimit()
    ensures ok ==> fs.Valid() && Exp(fs, e', JoinT(isAnd, T, xs), JoinF(isAnd, F, xs)) && !e'.k.VLocal?
    ensures ok ==> Computes(fs, e', JoinT(isAnd, T, xs), JoinF(isAnd, F, xs), m1.(v := Joined(isAnd, m1.v, m2.v)))
    ensures ok ==> Frame(old(fs.View()), fs.View(), Own(e, T, F) + Members(xs), Own(e', JoinT(isAnd, T, xs), JoinF(isAnd, F, xs)))
    ensures ok ==> (e'.k.VNonReloc? ==> (e.k.VNonReloc? || e.k.VLocal?) && e'.info == e.info) && (e'.k.VK? ==> e.k.VK? && e'.info == e.info)
  {
    hide WF, Means, IsList, NoDup, Frame, ExpShape, Conds, Proper, Members, Own, KeepsJump;
    ghost var s := fs.View();
    OwnPending(s, fs.k, fs.nactvar, fs.freereg, e, T, F);
    var e1;
    e' := e;
    ok, e1 := DischargeVars(fs, e, T, F, m2);
    if !ok {
      return;
    }
    ghost var s2 := fs.View();
    DischargedLists(s1, s, s2, l, xs);
    OwnSame(e, e1, T, F);
    ghost var L := if isAnd then F else T;
    var l';
    if isAnd {
      NoDupJoin(F, xs) by { DisjointLists(e1, T, F, xs); }
      ok, l' := fs.Concat(e1.f, l, F, xs);
      e' := e1.(f := l');
    } else {
      NoDupJoin(T, xs) by { DisjointLists(e1, T, F, xs); }
      ok, l' := fs.Concat(e1.t, l, T, xs);
      e' := e1.(t := l');
    }
    if ok {
      JoinOk(s2, fs.code, e1, e', T, F, xs, isAnd, fs.k, fs.nactvar, fs.freereg);
      FrameChain(s, s2, fs.View(), Own(e, T, F) + Members(xs), Own(e, T, F) + Members(xs));
      if fs.k <= m1.env.k { JoinMeans(s1, s2, fs.View(), fs.k, fs.nactvar, fs.freereg, e1, e', T, F, xs, isAnd, m1, m2); }
      JoinSound(fs, s2, L, e1, T, F);
    }
  }

  lemma DisjointLists(e: ExpDesc, T: seq<nat>, F: seq<nat>, xs: seq<nat>)
    requires Disjoint(e, T, F, xs)
    ensures Members(T) !! Members(xs) && Members(F) !! Members(xs)
  {}

  lemma DischargedLists(s1: Code, s: Code, s2: Code, l: int, xs: seq<nat>)
    requires Frame(s, s2, {}, {}) && IsList(s.code, l, xs) && Members(xs) <= s.pend
    requires forall j :: j in xs ==> KeepsJump(s1.code, s.code, j)
    ensures IsList(s2.code, l, xs) && Members(xs) <= s2.pend
    ensures forall j :: j in xs ==> KeepsJump(s1.code, s2.code, j)
  {
    FrameList(s, s2, {}, {}, l, xs);
    forall j | j in xs ensures KeepsJump(s1.code, s2.code, j) {
      assert KeepsJump(s1.code, s.code, j) && KeepsJump(s.code, s2.code, j);
    }
  }

  lemma JoinMeans(s1: Code, s2: Code, s3: Code, k: seq<Value>, nactvar: nat, freereg: nat, e: ExpDesc, e': ExpDesc,
                  T: seq<nat>, F: seq<nat>, xs: seq<nat>, isAnd: bool, m1: Meaning, m2: Meaning)
    requires Conds(s1, xs, isAnd, m1) && Continues(s1, m1, m2) && Means(s2, e, T, F, m2) && e' == e.(t := e'.t, f := e'.f)
    requires WF(s2) && Linked(s2, s3.code, if isAnd then F else T) && s3 == s2.(code := s3.code)
    requires Members(T) <= s2.pend && Members(F) <= s2.pend
    requires ExpShape(s2, k, nactvar, freereg, e)
    requires forall j :: j in xs ==> KeepsJump(s1.code, s2.code, j)
    requires Proper(m1) && (m1.o0.Exit? ==> m1.o0.j !in xs)
    ensures Means(s3, e', JoinT(isAnd, T, xs), JoinF(isAnd, F, xs), m1.(v := Joined(isAnd, m1.v, m2.v)))
  {
    var L := if isAnd then F else T;
    LinkedGround(s2, s3.code, L, e, m1.env, m1.r);
    LinkedFrame(s2, s3.code, L);
    RelinkedValues(s2, s3.code);
    hide WF, Means, Conds, EndsPlain, Linked, Members;
    assert Ground(s3, e') == Ground(s3, e);
    JoinedMeans(s1, s2, s3, e, e', T, F, xs, isAnd, m1, m2);
  }

  lemma JoinSound(fs: FuncState, s: Code, L: seq<nat>, e: ExpDesc, T: seq<nat>, F: seq<nat>)
    requires WF(s) && fs.View() == s.(code := fs.code) && Linked(s, fs.code, L) && Members(L) <= s.pend
    requires IsList(s.code, fs.jpc, fs.jumps) && NoDup(fs.jumps)
    requires fs.Sizes() && InFrame(s, fs.maxstacksize)
    requires |s.code| == s.base > s.last ==> !s.code[s.base - 1].LoadNil?
    ensures fs.Valid()
  {
    LinkedFrame(s, fs.code, L);
    RelinkedFrame(s, fs.code, fs.maxstacksize);
    assert Members(L) !! Members(fs.jumps);
    LinkedLists(s, fs.code, L, fs.jpc, fs.jumps);
    forall x | x in L ensures x >= s.base { assert x in Members(L) && x in All(s) && JumpIn(s, x); }
    if L != [] { assert L[|L| - 1] in L; }
  }
}
