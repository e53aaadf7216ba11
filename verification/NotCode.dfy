// Code for 'not' (lcode.c).

module NotCode {
  import opened Common
  import opened LuaVM
  import opened JumpCode
  import opened CodeState
  import opened FrameSize
  import opened CodeGen
  import opened ExpMeaning
  import opened LuaK
  import opened CondCode

  // ---------------------------------------------------------------------- removevalues

  // The tests of the jumps xs carry no values any more.
  function Unvalued(code: seq<Instr>, xs: seq<nat>): (code': seq<Instr>)
    ensures |code'| == |code|
    decreases |xs|
  {
    if xs == [] then code else Unvalued(PatchReg(code, xs[0], NO_REG), xs[1..])
  }

  lemma UnvaluedAt(code: seq<Instr>, xs: seq<nat>, i: nat)
    requires i < |code|
    ensures !code[i].TestSet? || i + 1 !in xs ==> Unvalued(code, xs)[i] == code[i]
    ensures code[i].TestSet? && i + 1 in xs ==> Unvalued(code, xs)[i] == Test(code[i].b, code[i].c)
    decreases |xs|
  {
    if xs != [] {
      assert forall x :: x in xs <==> x == xs[0] || x in xs[1..];
      UnvaluedAt(PatchReg(code, xs[0], NO_REG), xs[1..], i);
    }
  }

  lemma UnvaluedJumps(code: seq<Instr>, xs: seq<nat>)
    ensures forall j :: HasValue(Unvalued(code, xs), j) <==> HasValue(code, j) && j !in xs
    ensures forall j :: HasValue(code, j) && j !in xs ==> Unvalued(code, xs)[j - 1] == code[j - 1]
    ensures forall j: nat :: j < |code| && code[j].Jmp? ==> Unvalued(code, xs)[j] == code[j]
  {
    forall i: nat | i < |code|
      ensures !code[i].TestSet? || i + 1 !in xs ==> Unvalued(code, xs)[i] == code[i]
      ensures code[i].TestSet? && i + 1 in xs ==> Unvalued(code, xs)[i] == Test(code[i].b, code[i].c)
    {
      UnvaluedAt(code, xs, i);
    }
    forall j: nat ensures HasValue(Unvalued(code, xs), j) <==> HasValue(code, j) && j !in xs {
      if 1 <= j <= |code| { assert j - 1 + 1 == j; UnvaluedAt(code, xs, j - 1); }
    }
    forall j: nat | HasValue(code, j) && j !in xs ensures Unvalued(code, xs)[j - 1] == code[j - 1] {
      UnvaluedAt(code, xs, j - 1);
    }
  }

  lemma UnvaluedList(code: seq<Instr>, xs: seq<nat>, head: int, ys: seq<nat>)
    requires IsList(code, head, ys)
    ensures IsList(Unvalued(code, xs), head, ys)
  {
    UnvaluedJumps(code, xs);
    ListMembers(code, head, ys);
    ListFrame(code, Unvalued(code, xs), head, ys);
  }

  lemma {:induction false} UnvaluedOut(s: Code, xs: seq<nat>, env: Env, r: Regs)
    requires WF(s) && Members(xs) <= s.pend
    ensures var s' := s.(code := Unvalued(s.code, xs)); WF(s') && Out(s', env, r) == Out(s, env, r)
    decreases |xs|
  {
    if xs != [] {
      assert xs[0] in Members(xs);
      RemoveValueOut(s, xs[0], env, r);
      assert Members(xs[1..]) <= s.pend by { assert forall x :: x in Members(xs[1..]) ==> x in xs && x in Members(xs); }
      UnvaluedOut(s.(code := PatchReg(s.code, xs[0], NO_REG)), xs[1..], env, r);
    }
  }

  lemma {:induction false} UnvaluedPrefix(code: seq<Instr>, xs: seq<nat>, n: nat)
    requires n <= |code| && forall x :: x in xs ==> x < n
    ensures Unvalued(code, xs)[..n] == Unvalued(code[..n], xs)
    decreases |xs|
  {
    if xs != [] {
      assert xs[0] in xs;
      assert PatchReg(code, xs[0], NO_REG)[..n] == PatchReg(code[..n], xs[0], NO_REG);
      forall x | x in xs[1..] ensures x < n { assert x in xs; }
      UnvaluedPrefix(PatchReg(code, xs[0], NO_REG), xs[1..], n);
    }
  }

  lemma UnvaluedFrame(s: Code, xs: seq<nat>, own: set<nat>)
    requires WF(s) && Members(xs) <= own <= s.pend
    ensures Frame(s, s.(code := Unvalued(s.code, xs)), own, own)
  {
    UnvaluedJumps(s.code, xs);
    forall j | j in s.pend && j !in own ensures KeepsJump(s.code, Unvalued(s.code, xs), j) {
      assert j in All(s) && JumpIn(s, j);
      assert j in xs ==> j in Members(xs);
    }
  }

  lemma {:induction false} UnvaluedInFrame(s: Code, xs: seq<nat>, n: nat)
    requires InFrame(s, n)
    ensures InFrame(s.(code := Unvalued(s.code, xs)), n)
    decreases |xs|
  {
    if xs != [] {
      UnvaluedStep(s, xs[0], n);
      UnvaluedInFrame(s.(code := PatchReg(s.code, xs[0], NO_REG)), xs[1..], n);
    }
  }

  method RemoveValues(fs: FuncState, list: int, ghost xs: seq<nat>)
    requires IsList(fs.code, list, xs)
    modifies fs`code
    ensures fs.code == Unvalued(old(fs.code), xs)
  {
    hide IsList;
    var l := list;
    ghost var ys := xs;
    while l != NO_JUMP
      invariant IsList(fs.code, l, ys) && Unvalued(fs.code, ys) == Unvalued(old(fs.code), xs)
      decreases |ys|
    {
      ListTail(fs.code, l, ys);
      ghost var c := fs.code;
      var next := GetJump(fs.code, l);
      var _ := fs.PatchTestReg(l, NO_REG);
      UnvaluedOne(c, ys[0], next, ys[1..]);
      l := next;
      ys := ys[1..];
    }
    ListEnd(fs.code, ys);
  }

  lemma UnvaluedOne(c: seq<Instr>, x: nat, head: int, ys: seq<nat>)
    requires IsList(c, head, ys)
    ensures IsList(PatchReg(c, x, NO_REG), head, ys)
  {
    UnvaluedList(c, [x], head, ys);
    assert Unvalued(c, [x]) == PatchReg(c, x, NO_REG) by {
      assert [x][1..] == [];
      assert Unvalued(PatchReg(c, x, NO_REG), []) == PatchReg(c, x, NO_REG);
    }
  }

  // ------------------------------------------------------------------------------- not

  function Negated(m: Meaning): Meaning {
    m.(v := match m.v case None => None case Some(v) => Some(Bool(IsFalse(v))))
  }

  // The value on falling through is negated already, those of the jumps are not.
  ghost predicate HalfNegated(s: Code, e: ExpDesc, T: seq<nat>, F: seq<nat>, m: Meaning) {
    var o := Out(Ground(s, e), m.env, m.r);
    && Proper(m) && (m.o0.Exit? ==> m.o0.j !in Own(e, T, F))
    && if !m.o0.Fall? then o == m.o0
       else match m.v
         case None => o == Fault
         case Some(v) => HalfDenotes(s, e, T, F, m, v, o)
  }

  ghost predicate HalfDenotes(s: Code, e: ExpDesc, T: seq<nat>, F: seq<nat>, m: Meaning, v: Value, o: Outcome) {
    match o
    case Fall(r) => Same(m, r) && KindValue(s.code, e, m.env, r) == Bool(IsFalse(v))
    case Exit(j, r) => Same(m, r) && ((j in T && !IsFalse(v)) || (j in F && IsFalse(v)) || (e.k.VJmp? && j == e.info && IsFalse(v)))
    case _ => false
  }

  lemma HalfConst(s: Code, k: seq<Value>, e: ExpDesc, T: seq<nat>, F: seq<nat>, m: Meaning)
    requires Means(s, e, T, F, m) && k <= m.env.k && Fresh(k, e) && !e.k.VReloc? && !e.k.VJmp?
    ensures e.k.VNil? || e.k.VFalse? ==> HalfNegated(s, e.(k := VTrue), T, F, m)
    ensures e.k.VK? || e.k.VKInt? || e.k.VTrue? ==> HalfNegated(s, e.(k := VFalse), T, F, m)
  {}

  lemma HalfJump(s: Code, e: ExpDesc, T: seq<nat>, F: seq<nat>, m: Meaning)
    requires Branches(s, T, F, [e.info], false, m) && e.k.VJmp? && Proper(m) && (m.o0.Exit? ==> m.o0.j !in Own(e, T, F))
    ensures HalfNegated(s, e, T, F, m)
  {}

  lemma HalfNot(s: Code, e: ExpDesc, T: seq<nat>, F: seq<nat>, m: Meaning)
    requires WF(s) && TwoLists(s, T, F) && Means(s, e, T, F, m) && e.k.VNonReloc?
    ensures HalfNegated(Emitted(s, [Not(0, e.info)]), e.(k := VReloc, info := |s.code|), T, F, m)
  {
    hide WF, Means, HalfNegated, TwoLists;
    RelocGround(s, Not(0, e.info), m.env, m.r);
    var s' := Emitted(s, [Not(0, e.info)]);
    assert s'.code[|s.code|] == Not(0, e.info);
    HalfNotOut(s, s', e, T, F, m);
  }

  lemma HalfNotOut(s: Code, s': Code, e: ExpDesc, T: seq<nat>, F: seq<nat>, m: Meaning)
    requires Means(s, e, T, F, m) && e.k.VNonReloc? && |s'.code| == |s.code| + 1 && s'.code[|s.code|] == Not(0, e.info)
    requires Out(Before(s', |s.code|), m.env, m.r) == Out(s, m.env, m.r)
    ensures HalfNegated(s', e.(k := VReloc, info := |s.code|), T, F, m)
  {}

  function Swapped(e: ExpDesc): ExpDesc {
    e.(t := e.f, f := e.t)
  }

  function NoValues(s: Code, T: seq<nat>, F: seq<nat>): Code {
    s.(code := Unvalued(Unvalued(s.code, T), F))
  }

  lemma UnvaluedGround(s: Code, e: ExpDesc, xs: seq<nat>, env: Env, r: Regs)
    requires WF(s) && Members(xs) <= s.pend && (e.k.VReloc? ==> EndsPlain(s) && e.info == |s.code| - 1 && Relocatable(s.code[e.info]))
    ensures var s' := s.(code := Unvalued(s.code, xs));
      && WF(s') && (e.k.VReloc? ==> EndsPlain(s') && s'.code[e.info] == s.code[e.info])
      && Out(Ground(s', e), env, r) == Out(Ground(s, e), env, r)
  {
    hide Shape, Exec, Here;
    var s' := s.(code := Unvalued(s.code, xs));
    UnvaluedOut(s, xs, env, r);
    if e.k.VReloc? {
      var n := |s.code| - 1;
      UnvaluedAt(s.code, xs, n);
      PlainOut(s, env, r);
      var g := Before(s, n);
      forall x | x in xs ensures x < n { assert x in Members(xs) && x in All(s) && JumpIn(s, x); }
      UnvaluedPrefix(s.code, xs, n);
      UnvaluedOut(g, xs, env, r);
    }
  }

  lemma NegatedMeans(s: Code, e: ExpDesc, T: seq<nat>, F: seq<nat>, m: Meaning)
    requires WF(s) && TwoLists(s, T, F) && HalfNegated(s, e, T, F, m) && (e.k.VReloc? ==> EndsPlain(s) && e.info == |s.code| - 1 && Relocatable(s.code[e.info]))
    ensures Means(NoValues(s, T, F), Swapped(e), F, T, Negated(m))
  {
    var s1 := s.(code := Unvalued(s.code, T));
    var s2 := NoValues(s, T, F);
    UnvaluedGround(s, e, T, m.env, m.r);
    UnvaluedGround(s1, e, F, m.env, m.r);
    UnvaluedJumps(s.code, T);
    UnvaluedJumps(s1.code, F);
    assert forall j :: j in T || j in F ==> !HasValue(s2.code, j);
    assert forall r: Regs :: KindValue(s2.code, Swapped(e), m.env, r) == KindValue(s.code, e, m.env, r);
    hide WF, EndsPlain, TwoLists;
    NegatedOut(s, s2, e, T, F, m);
  }

  lemma NegatedOut(s: Code, s': Code, e: ExpDesc, T: seq<nat>, F: seq<nat>, m: Meaning)
    requires HalfNegated(s, e, T, F, m) && Out(Ground(s', e), m.env, m.r) == Out(Ground(s, e), m.env, m.r)
    requires forall j :: j in T || j in F ==> !HasValue(s'.code, j)
    requires forall r: Regs :: KindValue(s'.code, Swapped(e), m.env, r) == KindValue(s.code, e, m.env, r)
    ensures Means(s', Swapped(e), F, T, Negated(m))
  {
    assert Ground(s', Swapped(e)) == Ground(s', e);
  }

  // What the cases of codenot leave, before the lists are interchanged.
  ghost predicate Half(fs: FuncState, s: Code, e: ExpDesc, e': ExpDesc, T: seq<nat>, F: seq<nat>, m: Meaning)
    reads fs
  {
    && fs.Valid() && Exp(fs, e', T, F) && Frame(s, fs.View(), {}, {})
    && e'.t == e.t && e'.f == e.f && (e'.k.VJmp? <==> e.k.VJmp?) && (e.k.VJmp? ==> e' == e)
    && (fs.k <= m.env.k ==> HalfNegated(fs.View(), e', T, F, m))
  }

  lemma ConstHalf(fs: FuncState, e: ExpDesc, e': ExpDesc, T: seq<nat>, F: seq<nat>, m: Meaning)
    requires fs.Valid() && Exp(fs, e, T, F) && Computes(fs, e, T, F, m) && Fresh(fs.k, e)
    requires if e.k.VNil? || e.k.VFalse? then e' == e.(k := VTrue) else (e.k.VK? || e.k.VKInt? || e.k.VTrue?) && e' == e.(k := VFalse)
    ensures Half(fs, fs.View(), e, e', T, F, m)
  {
    SameFrame(fs.View());
    hide Means, HalfNegated, WF, Frame;
    if fs.k <= m.env.k { HalfConst(fs.View(), fs.k, e, T, F, m); }
  }

  lemma JumpHalf(fs: FuncState, s: Code, e: ExpDesc, T: seq<nat>, F: seq<nat>, m: Meaning)
    requires fs.Valid() && Exp(fs, e, T, F) && ExpOk(s, fs.k, fs.nactvar, fs.freereg, e, T, F) && e.k.VJmp?
    requires fs.View() == InvertedCode(s) && Frame(s, fs.View(), {}, {}) && (fs.k <= m.env.k ==> Means(s, e, T, F, m))
    ensures Half(fs, s, e, e, T, F, m)
  {
    hide Means, HalfNegated, Branches, Frame;
    if fs.k <= m.env.k {
      InvertBranches(s, e, T, F, m);
      MeansProper(s, e, T, F, m);
      HalfJump(fs.View(), e, T, F, m);
    }
  }

  lemma MeansProper(s: Code, e: ExpDesc, T: seq<nat>, F: seq<nat>, m: Meaning)
    requires Means(s, e, T, F, m)
    ensures Proper(m) && (m.o0.Exit? ==> m.o0.j !in Own(e, T, F))
  {}

  // Emits OP_NOT on a value in a register.
  method CodeNotOf(fs: FuncState, e: ExpDesc, ghost T: seq<nat>, ghost F: seq<nat>, ghost m: Meaning) returns (ok: bool, e': ExpDesc)
    requires fs.Valid() && Exp(fs, e, T, F) && Computes(fs, e, T, F, m) && m.lo <= fs.freereg && OnTop(fs, e)
    requires e.k.VReloc? || e.k.VNonReloc?
    modifies fs`code, fs`jpc, fs`jumps, fs`k, fs`h, fs`freereg, fs`maxstacksize
    ensures !ok ==> fs.AtLimit()
    ensures ok ==> old(fs.k) <= fs.k && fs.freereg == old(Top(fs, e)) && e'.k.VReloc?
    ensures ok ==> Half(fs, old(fs.View()), e, e', T, F, m)
  {
    hide WF, Means, HalfNegated, IsList, NoDup, TwoLists, Frame, Emitted;
    ghost var s := fs.View();
    var e1;
    e' := e;
    ok, e1 := Discharge2AnyReg(fs, e, T, F, m);
    if !ok {
      return;
    }
    ghost var s1 := fs.View();
    FreeExp(fs, e1);
    var pc;
    ok, pc := fs.CodePlain(Not(0, e1.info));
    e' := e1.(k := VReloc, info := pc);
    if ok {
      NotEmitted(fs, s1, e1, T, F, m);
      FrameTrans(s, s1, fs.View(), {}, {}, {});
    }
  }

  lemma NotEmitted(fs: FuncState, s: Code, e: ExpDesc, T: seq<nat>, F: seq<nat>, m: Meaning)
    requires fs.Valid() && WF(s) && fs.View() == Emitted(s, [Not(0, e.info)]) && e.k.VNonReloc?
    requires IsList(s.code, e.t, T) && IsList(s.code, e.f, F) && TwoLists(s, T, F) && (fs.k <= m.env.k ==> Means(s, e, T, F, m))
    ensures Frame(s, fs.View(), {}, {}) && Exp(fs, e.(k := VReloc, info := |s.code|), T, F)
    ensures fs.k <= m.env.k ==> HalfNegated(fs.View(), e.(k := VReloc, info := |s.code|), T, F, m)
  {
    hide Means, HalfNegated;
    RelocGround(s, Not(0, e.info), m.env, m.r);
    EmitFrame(s, [Not(0, e.info)]);
    FrameExp(s, fs.View(), e, T, F);
    assert fs.code[|s.code|] == Not(0, e.info);
    if fs.k <= m.env.k { HalfNot(s, e, T, F, m); }
  }

  // The cases of codenot.
  method NegateLast(fs: FuncState, e: ExpDesc, ghost T: seq<nat>, ghost F: seq<nat>, ghost m: Meaning) returns (ok: bool, e': ExpDesc)
    requires fs.Valid() && Exp(fs, e, T, F) && Computes(fs, e, T, F, m) && m.lo <= fs.freereg && OnTop(fs, e) && Fresh(fs.k, e)
    requires !e.k.VLocal? && !e.k.VUpval?
    modifies fs`code, fs`jpc, fs`jumps, fs`k, fs`h, fs`freereg, fs`maxstacksize
    ensures !ok ==> fs.AtLimit()
    ensures ok ==> old(fs.k) <= fs.k && fs.freereg == old(Top(fs, e)) && !e'.k.VNonReloc? && !e'.k.VK?
    ensures ok ==> Half(fs, old(fs.View()), e, e', T, F, m)
  {
    hide WF, Means, HalfNegated, IsList, NoDup, TwoLists, Frame;
    ok, e' := true, e;
    if e.k.VNil? || e.k.VFalse? {
      e' := e.(k := VTrue);
      ConstHalf(fs, e, e', T, F, m);
    } else if e.k.VK? || e.k.VKInt? || e.k.VTrue? {
      e' := e.(k := VFalse);
      ConstHalf(fs, e, e', T, F, m);
    } else if e.k.VJmp? {
      ghost var s := fs.View();
      InvertJump(fs, e, T, F);
      JumpHalf(fs, s, e, T, F, m);
    } else {
      ok, e' := CodeNotOf(fs, e, T, F, m);
    }
  }

  lemma NoValuesOk(fs: FuncState, e: ExpDesc, T: seq<nat>, F: seq<nat>, m: Meaning)
    requires fs.Valid() && Exp(fs, e, T, F)
    ensures var s := NoValues(fs.View(), T, F);
      && WF(s) && ExpOk(s, fs.k, fs.nactvar, fs.freereg, Swapped(e), F, T) && IsList(s.code, fs.jpc, fs.jumps)
      && Frame(fs.View(), s, Own(e, T, F), Own(e, T, F))
      && (|s.code| == s.base > s.last ==> !s.code[s.base - 1].LoadNil?)
    ensures IsList(Unvalued(fs.code, T), e.f, F)
  {
    hide WF, IsList, NoDup, Frame, Unvalued, Ground, Out;
    var s0 := fs.View();
    var s1 := s0.(code := Unvalued(s0.code, T));
    UnvaluedGround(s0, e, T, m.env, m.r);
    UnvaluedGround(s1, e, F, m.env, m.r);
    UnvaluedLists(s0.code, T, F, e, fs.jpc, fs.jumps);
    UnvaluedFrame(s0, T, Own(e, T, F));
    UnvaluedFrame(s1, F, Own(e, T, F));
    FrameTrans(s0, s1, NoValues(s0, T, F), Own(e, T, F), Own(e, T, F), Own(e, T, F));
    if e.k.VJmp? {
      SameThere(s0.code, T, F, e.info - 1);
      SameThere(s0.code, T, F, e.info);
    }
    if s0.base > 0 {
      BelowBase(s0);
      SameThere(s0.code, T, F, s0.base - 1);
    }
  }

  lemma BelowBase(s: Code)
    requires WF(s) && s.base > 0
    ensures s.base <= |s.code| && !IsTest(s.code[s.base - 1])
  {}

  lemma SameThere(code: seq<Instr>, T: seq<nat>, F: seq<nat>, i: nat)
    requires i < |code| && !code[i].TestSet?
    ensures Unvalued(Unvalued(code, T), F)[i] == code[i]
  {
    UnvaluedAt(code, T, i);
    UnvaluedAt(Unvalued(code, T), F, i);
  }

  lemma UnvaluedLists(code: seq<Instr>, T: seq<nat>, F: seq<nat>, e: ExpDesc, jpc: int, jumps: seq<nat>)
    requires IsList(code, e.t, T) && IsList(code, e.f, F) && IsList(code, jpc, jumps)
    ensures var code' := Unvalued(Unvalued(code, T), F);
      IsList(code', e.t, T) && IsList(code', e.f, F) && IsList(code', jpc, jumps) && IsList(Unvalued(code, T), e.f, F)
  {
    UnvaluedList(code, T, e.t, T);
    UnvaluedList(code, T, e.f, F);
    UnvaluedList(code, T, jpc, jumps);
    UnvaluedList(Unvalued(code, T), F, e.t, T);
    UnvaluedList(Unvalued(code, T), F, e.f, F);
    UnvaluedList(Unvalued(code, T), F, jpc, jumps);
  }

  lemma FramePend(s: Code, s': Code)
    requires Frame(s, s', {}, {})
    ensures s'.pend == s.pend
  {}

  lemma SwapOwn(e: ExpDesc, T: seq<nat>, F: seq<nat>)
    ensures Own(Swapped(e), F, T) == Own(e, T, F)
  {}

  // Interchanges the lists, whose jumps lose their values.
  method Interchange(fs: FuncState, e: ExpDesc, ghost T: seq<nat>, ghost F: seq<nat>, ghost m: Meaning) returns (e': ExpDesc)
    requires fs.Valid() && Exp(fs, e, T, F) && (fs.k <= m.env.k ==> HalfNegated(fs.View(), e, T, F, m))
    modifies fs`code
    ensures fs.Valid() && e' == Swapped(e) && Exp(fs, e', F, T) && Computes(fs, e', F, T, Negated(m))
    ensures Frame(old(fs.View()), fs.View(), Own(e, T, F), Own(e', F, T))
  {
    hide WF, Means, HalfNegated, IsList, NoDup, TwoLists, Frame;
    ghost var s := fs.View();
    NoValuesOk(fs, e, T, F, m);
    UnvaluedInFrame(s, T, fs.maxstacksize);
    UnvaluedInFrame(s.(code := Unvalued(s.code, T)), F, fs.maxstacksize);
    if fs.k <= m.env.k { NegatedMeans(s, e, T, F, m); }
    SwapOwn(e, T, F);
    e' := Swapped(e);
    RemoveValues(fs, e'.f, T);
    RemoveValues(fs, e'.t, F);
  }

  // codenot.
  method CodeNot(fs: FuncState, e: ExpDesc, ghost T: seq<nat>, ghost F: seq<nat>, ghost m: Meaning) returns (ok: bool, e': ExpDesc)
    requires fs.Valid() && Exp(fs, e, T, F) && Computes(fs, e, T, F, m) && OnTop(fs, e) && m.lo <= Top(fs, e) && Fresh(fs.k, e)
    modifies fs`code, fs`jpc, fs`jumps, fs`k, fs`h, fs`freereg, fs`maxstacksize
    ensures !ok ==> fs.AtLimit()
    ensures ok ==> fs.Valid() && old(fs.k) <= fs.k && fs.freereg == old(Top(fs, e)) && !e'.k.VNonReloc? && !e'.k.VK?
    ensures ok ==> Exp(fs, e', F, T) && Computes(fs, e', F, T, Negated(m))
    ensures ok ==> Frame(old(fs.View()), fs.View(), Own(e, T, F), Own(e', F, T))
  {
    hide WF, Means, HalfNegated, IsList, NoDup, TwoLists, Frame, EndsTest, EndsPlain;
    ghost var s := fs.View();
    OwnPending(s, fs.k, fs.nactvar, fs.freereg, e, T, F);
    var e1;
    e' := e;
    ok, e1 := DischargeVars(fs, e, T, F, m);
    if !ok {
      return;
    }
    ghost var s1 := fs.View();
    ok, e' := NegateLast(fs, e1, T, F, m);
    if !ok {
      return;
    }
    ghost var s2 := fs.View();
    ghost var e2 := e';
    e' := Interchange(fs, e', T, F, m);
    OwnSame(e, e1, T, F);
    OwnSame(e1, e2, T, F);
    FrameChainAgain(s1, s2, fs.View(), e1, T, F, Own(e', F, T)) by { FramePend(s, s1); }
    FrameChainAgain(s, s1, fs.View(), e, T, F, Own(e', F, T));
  }
}
