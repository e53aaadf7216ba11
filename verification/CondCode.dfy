// Code for conditions (lcode.c): tests and jumps that leave an expression, 'not',
// comparisons, 'and' and 'or'.

module CondCode {
  import opened Common
  import opened LuaVM
  import opened JumpCode
  import opened CodeState
  import opened FrameSize
  import opened CodeGen
  import opened ExpMeaning
  import opened LuaK

  // The expression ends in a test: execution leaves through a jump of xs if the value is
  // as 'cond' says, and goes on otherwise.
  ghost predicate Branches(s: Code, T: seq<nat>, F: seq<nat>, xs: seq<nat>, cond: bool, m: Meaning) {
    var o := Out(s, m.env, m.r);
    if !m.o0.Fall? then o == m.o0
    else match m.v
      case None => o == Fault
      case Some(v) => Leaves(s.code, T, F, xs, cond, m, v, o)
  }

  ghost predicate Leaves(code: seq<Instr>, T: seq<nat>, F: seq<nat>, xs: seq<nat>, cond: bool, m: Meaning, v: Value, o: Outcome) {
    match o
    case Fall(r) => Same(m, r) && IsFalse(v) == cond
    case Exit(j, r) =>
      && Same(m, r)
      && ((j in T && !IsFalse(v) && ExitValue(code, j, true, r) == v)
          || (j in F && IsFalse(v) && ExitValue(code, j, false, r) == v)
          || (j in xs && IsFalse(v) != cond && ExitValue(code, j, cond, r) == v))
    case _ => false
  }

  lemma SetBranches(s: Code, e: ExpDesc, T: seq<nat>, F: seq<nat>, cond: bool, m: Meaning)
    requires WF(s) && TwoLists(s, T, F) && Means(s, e, T, F, m) && e.k.VNonReloc?
    ensures Branches(Tested(s, TestSet(NO_REG, e.info, if cond then 1 else 0)), T, F, [|s.code| + 1], cond, m)
  {
    var i := TestSet(NO_REG, e.info, if cond then 1 else 0);
    var s' := Tested(s, i);
    EmitTest(s, i, m.env, m.r);
    TestFrame(s, i, {});
    assert s'.code[|s.code|] == i;
    forall j | j in T || j in F ensures KeepsJump(s.code, s'.code, j) { assert j in Members(T) || j in Members(F); }
    hide WF, Tested, KeepsJump;
    SetLeaves(s, s', e, T, F, cond, m);
  }

  lemma SetLeaves(s: Code, s': Code, e: ExpDesc, T: seq<nat>, F: seq<nat>, cond: bool, m: Meaning)
    requires Means(s, e, T, F, m) && e.k.VNonReloc?
    requires forall j :: j in T || j in F ==> KeepsJump(s.code, s'.code, j)
    requires |s'.code| == |s.code| + 2 && s'.code[|s.code|] == TestSet(NO_REG, e.info, if cond then 1 else 0)
    requires Out(s', m.env, m.r) == AfterTest(Out(s, m.env, m.r), s'.code[|s.code|], m.env, |s.code| + 1)
    ensures Branches(s', T, F, [|s.code| + 1], cond, m)
  {}

  // 'not' is removed: its operand is tested.
  lemma NotBranches(s: Code, e: ExpDesc, T: seq<nat>, F: seq<nat>, cond: bool, m: Meaning)
    requires EndsPlain(s) && TwoLists(s, T, F) && Means(s, e, T, F, m)
    requires e.k.VReloc? && e.info == |s.code| - 1 && s.code[e.info].Not?
    ensures var b := Before(s, e.info);
      Branches(Tested(b, Test(s.code[e.info].b, if cond then 0 else 1)), T, F, [e.info + 1], cond, m)
  {
    var b := Before(s, e.info);
    var i := Test(s.code[e.info].b, if cond then 0 else 1);
    var s' := Tested(b, i);
    CutFrame(s, e);
    EmitTest(b, i, m.env, m.r);
    TestFrame(b, i, {});
    assert s'.code[|b.code|] == i;
    forall j | j in T || j in F ensures KeepsJump(s.code, s'.code, j) { assert j in Members(T) || j in Members(F); }
    hide WF, Tested, KeepsJump;
    NotLeaves(s, s', e, T, F, cond, m);
  }

  lemma CutFrame(s: Code, e: ExpDesc)
    requires EndsPlain(s) && e.k.VReloc? && e.info == |s.code| - 1
    ensures WF(Before(s, e.info)) && Frame(s, Before(s, e.info), {}, {}) && Before(s, e.info).pend == s.pend
  {
    var b := Before(s, e.info);
    PlainOut(s, Env([], []), []);
    forall j | j in s.pend ensures j < e.info && KeepsJump(s.code, b.code, j) { assert j in All(s) && JumpIn(s, j); }
  }

  lemma NotLeaves(s: Code, s': Code, e: ExpDesc, T: seq<nat>, F: seq<nat>, cond: bool, m: Meaning)
    requires s.code != [] && Means(s, e, T, F, m)
    requires e.k.VReloc? && e.info == |s.code| - 1 && s.code[e.info].Not?
    requires forall j :: j in T || j in F ==> KeepsJump(s.code, s'.code, j)
    requires |s'.code| == e.info + 2 && s'.code[e.info] == Test(s.code[e.info].b, if cond then 0 else 1)
    requires Out(s', m.env, m.r) == AfterTest(Out(Before(s, e.info), m.env, m.r), s'.code[e.info], m.env, e.info + 1)
    ensures Branches(s', T, F, [e.info + 1], cond, m)
  {}

  // The lists of the expression, and the jump of its last test.
  ghost predicate Lists(fs: FuncState, e: ExpDesc, T: seq<nat>, F: seq<nat>, xs: seq<nat>)
    reads fs
  {
    && IsList(fs.code, e.t, T) && IsList(fs.code, e.f, F) && TwoLists(fs.View(), T, F)
    && NoDup(xs) && Members(xs) <= fs.pend && Members(xs) !! Members(T) && Members(xs) !! Members(F)
  }

  lemma TestLists(fs: FuncState, s: Code, i: Instr, e: ExpDesc, T: seq<nat>, F: seq<nat>)
    requires WF(s) && IsTest(i) && IsList(s.code, e.t, T) && IsList(s.code, e.f, F) && TwoLists(s, T, F) && fs.View() == Tested(s, i)
    ensures Lists(fs, e, T, F, [|s.code| + 1]) && IsList(fs.code, |s.code| + 1, [|s.code| + 1])
    ensures Frame(s, fs.View(), Members(T) + Members(F), Members(T) + Members(F) + {|s.code| + 1})
  {
    var own := Members(T) + Members(F);
    TestFrame(s, i, own);
    TestFrame(s, i, {});
    forall j | j in s.pend ensures j < |s.code| { assert j in All(s) && JumpIn(s, j); }
    FrameList(s, fs.View(), {}, {|s.code| + 1}, e.t, T);
    FrameList(s, fs.View(), {}, {|s.code| + 1}, e.f, F);
    assert fs.code[|s.code| + 1] == Jmp(NO_JUMP);
    assert Members([|s.code| + 1]) == {|s.code| + 1};
  }

  // discharge2anyreg.
  method Discharge2AnyReg(fs: FuncState, e: ExpDesc, ghost T: seq<nat>, ghost F: seq<nat>, ghost m: Meaning) returns (ok: bool, e': ExpDesc)
    requires fs.Valid() && Exp(fs, e, T, F) && Computes(fs, e, T, F, m) && m.lo <= fs.freereg && OnTop(fs, e)
    requires !e.k.VLocal? && !e.k.VUpval? && !e.k.VJmp?
    modifies fs`code, fs`jpc, fs`jumps, fs`k, fs`h, fs`freereg, fs`maxstacksize
    ensures !ok ==> fs.AtLimit()
    ensures ok ==> fs.Valid() && old(fs.k) <= fs.k && e'.k.VNonReloc? && OnTop(fs, e') && Top(fs, e') == old(Top(fs, e))
    ensures ok ==> Exp(fs, e', T, F) && Computes(fs, e', T, F, m) && e'.t == e.t && e'.f == e.f
    ensures ok ==> Frame(old(fs.View()), fs.View(), {}, {})
  {
    hide WF, Means, IsList, Frame, NoDup, TwoLists;
    SameFrame(fs.View());
    ok, e' := true, e;
    if !e.k.VNonReloc? {
      ok := fs.ReserveRegs(1);
      if ok {
        ok, e' := Discharge2Reg(fs, e, T, F, fs.freereg - 1, m);
      }
    }
  }

  // jumponcond: jumps if the value is as 'cond' says.
  method JumpOnCond(fs: FuncState, e: ExpDesc, ghost T: seq<nat>, ghost F: seq<nat>, cond: bool, ghost m: Meaning) returns (ok: bool, j: nat)
    requires fs.Valid() && Exp(fs, e, T, F) && Computes(fs, e, T, F, m) && m.lo <= Top(fs, e) && OnTop(fs, e)
    requires !e.k.VLocal? && !e.k.VUpval? && !e.k.VJmp?
    modifies fs`code, fs`jpc, fs`jumps, fs`pend, fs`k, fs`h, fs`freereg, fs`maxstacksize
    ensures !ok ==> fs.AtLimit()
    ensures ok ==> fs.Valid() && old(fs.k) <= fs.k && fs.freereg == old(Top(fs, e))
    ensures ok ==> Lists(fs, e, T, F, [j]) && IsList(fs.code, j, [j])
    ensures ok ==> Frame(old(fs.View()), fs.View(), Members(T) + Members(F), Members(T) + Members(F) + {j})
    ensures ok && fs.k <= m.env.k ==> Branches(fs.View(), T, F, [j], cond, m)
  {
    hide InFrame, WF, Means, IsList, Frame, NoDup, TwoLists, Branches;
    if e.k.VReloc? && fs.code[e.info].Not? {
      ok, j := TestOperand(fs, e, T, F, cond, m);
      return;
    }
    ghost var s := fs.View();
    var e1;
    j := 0;
    ok, e1 := Discharge2AnyReg(fs, e, T, F, m);
    if !ok {
      return;
    }
    ghost var s1 := fs.View();
    FreeExp(fs, e1);
    ok, j := fs.CondJump(TestSet(NO_REG, e1.info, if cond then 1 else 0));
    if ok {
      TestLists(fs, s1, TestSet(NO_REG, e1.info, if cond then 1 else 0), e, T, F);
      OwnMembers(s, fs.k, fs.nactvar, e, T, F) by { OwnPending(s, old(fs.k), fs.nactvar, old(fs.freereg), e, T, F); }
      FrameChain(s, s1, fs.View(), Members(T) + Members(F), Members(T) + Members(F) + {j});
      if fs.k <= m.env.k { SetBranches(s1, e1, T, F, cond, m); }
    }
  }

  lemma OwnMembers(s: Code, k: seq<Value>, nactvar: nat, e: ExpDesc, T: seq<nat>, F: seq<nat>)
    requires Own(e, T, F) <= s.pend
    ensures Members(T) + Members(F) <= s.pend
  {}

  // Removes 'not' and tests its operand instead.
  method TestOperand(fs: FuncState, e: ExpDesc, ghost T: seq<nat>, ghost F: seq<nat>, cond: bool, ghost m: Meaning) returns (ok: bool, j: nat)
    requires fs.Valid() && Exp(fs, e, T, F) && Computes(fs, e, T, F, m)
    requires e.k.VReloc? && fs.code[e.info].Not?
    modifies fs`code, fs`jpc, fs`jumps, fs`pend
    ensures !ok ==> fs.AtLimit()
    ensures ok ==> fs.Valid() && Lists(fs, e, T, F, [j]) && IsList(fs.code, j, [j])
    ensures ok ==> Frame(old(fs.View()), fs.View(), Members(T) + Members(F), Members(T) + Members(F) + {j})
    ensures ok && fs.k <= m.env.k ==> Branches(fs.View(), T, F, [j], cond, m)
  {
    hide WF, Means, IsList, Frame, NoDup, TwoLists, Branches;
    ghost var s := fs.View();
    var i := Test(fs.code[e.info].b, if cond then 0 else 1);
    CutFrame(s, e);
    CutLists(fs, s, e, T, F);
    CutTest(fs, e, T, F);
    fs.code := fs.code[..|fs.code| - 1];  // the NOT is not needed
    ghost var b := fs.View();
    ok, j := fs.CondJump(i);
    if ok {
      TestLists(fs, b, i, e, T, F);
      OwnMembers(s, fs.k, fs.nactvar, e, T, F) by { OwnPending(s, fs.k, fs.nactvar, fs.freereg, e, T, F); }
      FrameChain(s, b, fs.View(), Members(T) + Members(F), Members(T) + Members(F) + {j});
      if fs.k <= m.env.k { NotBranches(s, e, T, F, cond, m); }
    }
  }

  lemma CutTest(fs: FuncState, e: ExpDesc, T: seq<nat>, F: seq<nat>)
    requires fs.Valid() && Exp(fs, e, T, F) && e.k.VReloc? && fs.code[e.info].Not?
    ensures InFrame(Before(fs.View(), e.info), fs.maxstacksize) && fs.code[e.info].b < fs.maxstacksize
  {
    PlainLeader(fs.View());
    CutInFrame(fs.View(), fs.maxstacksize);
    assert Within(fs.code[e.info], fs.maxstacksize);
  }

  lemma CutLists(fs: FuncState, s: Code, e: ExpDesc, T: seq<nat>, F: seq<nat>)
    requires fs.View() == s && Exp(fs, e, T, F) && e.k.VReloc? && fs.Links()
    ensures var b := Before(s, e.info);
      && IsList(b.code, e.t, T) && IsList(b.code, e.f, F) && TwoLists(b, T, F) && IsList(b.code, fs.jpc, fs.jumps)
      && b == s.(code := s.code[..|s.code| - 1])
  {
    CutFrame(s, e);
    FrameList(s, Before(s, e.info), {}, {}, e.t, T);
    FrameList(s, Before(s, e.info), {}, {}, e.f, F);
  }

  // ------------------------------------------------------------- leaving the expression

  // Offsets of jumps may have changed, but not what the jumps carry.
  ghost predicate ValuesKept(code: seq<Instr>, code': seq<Instr>) {
    && |code'| == |code|
    && forall j :: (HasValue(code', j) <==> HasValue(code, j)) && (HasValue(code, j) ==> code'[j - 1] == code[j - 1])
  }

  lemma RelinkedValues(s: Code, code': seq<Instr>)
    requires WF(s) && Relinked(s, code')
    ensures ValuesKept(s.code, code')
  {
    forall j | j in All(s) ensures JumpIn(s, j) {}
  }

  lemma LinkedFrame(s: Code, code': seq<Instr>, xs: seq<nat>)
    requires WF(s) && Linked(s, code', xs) && Members(xs) <= s.pend
    ensures Relinked(s, code') && WF(s.(code := code')) && Frame(s, s.(code := code'), Members(xs), Members(xs))
  {
    RelinkKeeps(s, code', xs);
    RelinkOut(s, code', Env([], []), []);
  }

  // The jumps of H come to the end of the code.
  lemma HereFrame(s: Code, s': Code, H: seq<nat>)
    requires WF(s) && Members(H) <= s.pend && s' == ToHere(s.(code := s'.code), H) && Relinked(s, s'.code)
    requires forall i :: 0 <= i < |s.code| && (s.jumps == [] || i != s.jumps[|s.jumps| - 1]) ==> s'.code[i] == s.code[i]
    ensures Frame(s, s', Members(H), {})
    ensures forall ys: seq<nat>, head: int :: Members(ys) <= s.pend && IsList(s.code, head, ys) ==> IsList(s'.code, head, ys)
  {
    RelinkedValues(s, s'.code);
    if s.jumps != [] { assert s.jumps[|s.jumps| - 1] in Members(s.jumps); }
    forall j | j in s.pend ensures KeepsJump(s.code, s'.code, j) { assert j in All(s) && JumpIn(s, j); }
    forall ys: seq<nat>, head: int | Members(ys) <= s.pend && IsList(s.code, head, ys) ensures IsList(s'.code, head, ys) {
      forall x | x in ys ensures s'.code[x] == s.code[x] { assert x in Members(ys) && KeepsJump(s.code, s'.code, x); }
      ListFrame(s.code, s'.code, head, ys);
    }
  }

  ghost predicate Apart(s: Code, K: seq<nat>, xs: seq<nat>, H: seq<nat>) {
    && NoDup(K) && NoDup(xs) && NoDup(H) && Members(K) <= s.pend && Members(xs) <= s.pend && Members(H) <= s.pend
    && Members(K) !! Members(xs) && Members(K) !! Members(H) && Members(xs) !! Members(H)
  }

  lemma ApartJoined(s: Code, K: seq<nat>, xs: seq<nat>, H: seq<nat>)
    requires WF(s) && Apart(s, K, xs, H)
    ensures NoDup(K + xs) && Members(K + xs) == Members(K) + Members(xs) && Members(K) !! Members(s.jumps) && Members(H) !! Members(s.jumps)
    ensures Members(K) !! Members(H)
  {
    forall i, j | 0 <= i < j < |K + xs| ensures (K + xs)[i] != (K + xs)[j] {
      if i < |K| <= j { assert K[i] in Members(K) && xs[j - |K|] in Members(xs); }
    }
  }

  // The jumps xs join the list K; those of H come here.
  method Leave(fs: FuncState, keep: int, j: int, here: int, ghost K: seq<nat>, ghost xs: seq<nat>, ghost H: seq<nat>) returns (ok: bool, l: int)
    requires fs.Valid() && Apart(fs.View(), K, xs, H)
    requires IsList(fs.code, keep, K) && IsList(fs.code, j, xs) && IsList(fs.code, here, H)
    modifies fs`code, fs`jpc, fs`jumps, fs`pend, fs`lasttarget
    ensures !ok ==> fs.AtLimit()
    ensures ok ==> fs.Valid() && IsList(fs.code, l, K + xs) && NoDup(K + xs) && Members(K + xs) <= fs.pend
    ensures ok ==> Relinked(old(fs.View()), fs.code) && fs.View() == ToHere(old(fs.View()).(code := fs.code), H)
    ensures ok ==> Frame(old(fs.View()), fs.View(), Members(K) + Members(xs) + Members(H), Members(K + xs))
  {
    hide WF, IsList, NoDup, Frame, Members;
    ghost var s := fs.View();
    ApartJoined(s, K, xs, H);
    ok, l := fs.Concat(keep, j, K, xs);
    if !ok {
      return;
    }
    ghost var s1 := fs.View();
    LinkedFrame(s, fs.code, K);
    RelinkedFrame(s, fs.code, fs.maxstacksize);
    LinkedLists(s, fs.code, K, here, H);
    LinkedLists(s, fs.code, K, fs.jpc, fs.jumps);
    SoundHere(fs, s1);
    ok := fs.PatchToHere(here, H);
    if ok {
      HereFrame(s1, fs.View(), H);
      LeaveFrame(s, s1, fs.View(), K, xs, H);
    }
  }

  lemma SoundHere(fs: FuncState, s: Code)
    requires fs.View() == s && WF(s)
    ensures WF(s.(last := |s.code|))
  {
    LabelWF(s);
  }

  lemma LeaveFrame(s: Code, s1: Code, s2: Code, K: seq<nat>, xs: seq<nat>, H: seq<nat>)
    requires WF(s) && Apart(s, K, xs, H) && Members(K + xs) == Members(K) + Members(xs)
    requires Frame(s, s1, Members(K), Members(K)) && Relinked(s, s1.code) && s1 == s.(code := s1.code)
    requires Frame(s1, s2, Members(H), {}) && Relinked(s1, s2.code) && s2 == ToHere(s1.(code := s2.code), H)
    ensures Frame(s, s2, Members(K) + Members(xs) + Members(H), Members(K + xs)) && Relinked(s, s2.code)
    ensures Members(K + xs) <= s2.pend
  {
    forall j | j in s.pend && j !in Members(K) + Members(xs) + Members(H) ensures KeepsJump(s.code, s2.code, j) {
      assert KeepsJump(s.code, s1.code, j) && KeepsJump(s1.code, s2.code, j);
    }
  }

  lemma LeftConds(s: Code, s': Code, T: seq<nat>, F: seq<nat>, xs: seq<nat>, cond: bool, m: Meaning)
    requires WF(s) && Branches(s, T, F, xs, cond, m) && Relinked(s, s'.code)
    requires var H := if cond then F else T; s' == ToHere(s.(code := s'.code), H) && NoDup(H) && Members(H) <= s.pend
    requires Members(T) !! Members(F) && Members(xs) !! Members(T) && Members(xs) !! Members(F)
    requires m.o0.Exit? ==> m.o0.j !in Members(T) && m.o0.j !in Members(F)
    ensures Conds(s', (if cond then T else F) + xs, !cond, m)
  {
    var H := if cond then F else T;
    RelinkOut(s, s'.code, m.env, m.r);
    RelinkedValues(s, s'.code);
    ToHereOut(s.(code := s'.code), H, m.env, m.r);
    hide WF, Relinked, NoDup;
    assert forall j :: (j in T <==> j in Members(T)) && (j in F <==> j in Members(F)) && (j in xs <==> j in Members(xs));
    HereConds(s, s', T, F, xs, cond, m);
  }

  lemma HereConds(s: Code, s': Code, T: seq<nat>, F: seq<nat>, xs: seq<nat>, cond: bool, m: Meaning)
    requires Branches(s, T, F, xs, cond, m) && ValuesKept(s.code, s'.code)
    requires Out(s', m.env, m.r) == Here(Out(s, m.env, m.r), if cond then F else T)
    requires forall j :: (j in T ==> j !in F) && (j in xs ==> j !in T && j !in F)
    requires m.o0.Exit? ==> m.o0.j !in T && m.o0.j !in F
    ensures Conds(s', (if cond then T else F) + xs, !cond, m)
  {}

  // ----------------------------------------------------------------- goiftrue, goiffalse

  // Constants of expressions are not false.
  predicate Fresh(k: seq<Value>, e: ExpDesc) {
    e.k.VK? ==> e.info < |k| && !IsFalse(k[e.info])
  }

  lemma ConstBranches(s: Code, k: seq<Value>, e: ExpDesc, T: seq<nat>, F: seq<nat>, cond: bool, m: Meaning)
    requires Means(s, e, T, F, m) && k <= m.env.k && Fresh(k, e)
    requires if cond then e.k.VNil? || e.k.VFalse? else e.k.VK? || e.k.VKInt? || e.k.VTrue?
    ensures Branches(s, T, F, [], cond, m)
  {}

  lemma JmpBranches(s: Code, e: ExpDesc, T: seq<nat>, F: seq<nat>, m: Meaning)
    requires EndsTest(s) && e.k.VJmp? && e.info == |s.code| - 1 && s.code[|s.code| - 2].Cmp? && Means(s, e, T, F, m)
    ensures Branches(s, T, F, [e.info], true, m)
  {}

  function InvertedCode(s: Code): Code
    requires |s.code| >= 2
  {
    s.(code := s.code[|s.code| - 2 := Inverted(s.code[|s.code| - 2])])
  }

  lemma InvertBranches(s: Code, e: ExpDesc, T: seq<nat>, F: seq<nat>, m: Meaning)
    requires EndsTest(s) && e.k.VJmp? && e.info == |s.code| - 1 && s.code[|s.code| - 2].Cmp?
    requires Means(s, e, T, F, m) && TwoLists(s, T, F) && e.info !in T && e.info !in F
    ensures Branches(InvertedCode(s), T, F, [e.info], false, m)
  {
    hide Shape, Exec, Here, Means, Branches;
    InvertOut(s, m.env, m.r);
    TestOut(s, m.env, m.r);
    CutOut(s, |s.code| - 2, m.env, m.r);
    OutOk(Before(s, |s.code| - 2), m.env, m.r);
    InvertFrame(s);
    forall j | j in T || j in F ensures KeepsJump(s.code, InvertedCode(s).code, j) { assert j in Members(T) || j in Members(F); }
    hide WF, EndsTest, Frame, KeepsJump;
    InvertLeaves(s, InvertedCode(s), Out(Before(s, |s.code| - 2), m.env, m.r), e, T, F, m);
  }

  lemma InvertLeaves(s: Code, s': Code, o: Outcome, e: ExpDesc, T: seq<nat>, F: seq<nat>, m: Meaning)
    requires e.k.VJmp? && |s.code| >= 2 && e.info == |s.code| - 1 && s.code[|s.code| - 2].Cmp? && e.info !in T && e.info !in F
    requires Means(s, e, T, F, m) && forall j :: j in T || j in F ==> KeepsJump(s.code, s'.code, j)
    requires |s'.code| == |s.code| && s'.code[|s.code| - 2] == Inverted(s.code[|s.code| - 2])
    requires Out(s, m.env, m.r) == AfterTest(o, s.code[|s.code| - 2], m.env, e.info)
    requires Out(s', m.env, m.r) == AfterTest(o, s'.code[|s.code| - 2], m.env, e.info)
    requires o.Exit? ==> o.j != e.info
    ensures Branches(s', T, F, [e.info], false, m)
  {}

  lemma InvertFrame(s: Code)
    requires EndsTest(s) && s.code[|s.code| - 2].Cmp?
    ensures Frame(s, InvertedCode(s), {}, {})
  {
    forall j | j in s.pend ensures KeepsJump(s.code, InvertedCode(s).code, j) { assert j in All(s) && JumpIn(s, j); }
  }

  // invertjump.
  method InvertJump(fs: FuncState, e: ExpDesc, ghost T: seq<nat>, ghost F: seq<nat>)
    requires e.k.VJmp? && fs.Valid() && Exp(fs, e, T, F)
    modifies fs`code
    ensures fs.View() == InvertedCode(old(fs.View())) && |fs.code| == |old(fs.code)|
    ensures fs.Valid() && Exp(fs, e, T, F) && Frame(old(fs.View()), fs.View(), {}, {})
  {
    hide Shape, Exec, Frame, IsList;
    ghost var s := fs.View();
    InvertFrame(s);
    InvertOut(s, Env([], []), []);
    InvertLists(fs, s, e, T, F);
    assert Within(fs.code[e.info - 1], fs.maxstacksize);
    ReplacedFrame(s, e.info - 1, Inverted(fs.code[e.info - 1]), fs.maxstacksize);
    fs.code := fs.code[e.info - 1 := Inverted(fs.code[e.info - 1])];
  }

  lemma InvertLists(fs: FuncState, s: Code, e: ExpDesc, T: seq<nat>, F: seq<nat>)
    requires fs.View() == s && e.k.VJmp? && fs.Valid() && Exp(fs, e, T, F)
    ensures var s' := InvertedCode(s);
      IsList(s'.code, e.t, T) && IsList(s'.code, e.f, F) && TwoLists(s', T, F) && IsList(s'.code, fs.jpc, fs.jumps)
    ensures ExpOk(InvertedCode(s), fs.k, fs.nactvar, fs.freereg, e, T, F)
  {
    InvertFrame(s);
    FrameList(s, InvertedCode(s), {}, {}, e.t, T);
    FrameList(s, InvertedCode(s), {}, {}, e.f, F);
    InvertOut(s, Env([], []), []);
  }

  lemma JmpLists(fs: FuncState, e: ExpDesc, T: seq<nat>, F: seq<nat>)
    requires Exp(fs, e, T, F)
    ensures e.k.VJmp? ==> Lists(fs, e, T, F, [e.info]) && IsList(fs.code, e.info, [e.info]) && Own(e, T, F) == Members(T) + Members(F) + Members([e.info])
    ensures !e.k.VJmp? ==> Lists(fs, e, T, F, []) && IsList(fs.code, NO_JUMP, []) && Own(e, T, F) == Members(T) + Members(F) + Members([])
  {
    assert forall j :: (j in T <==> j in Members(T)) && (j in F <==> j in Members(F));
  }

  // The run did not end before at a jump of the lists.
  ghost predicate Outside(m: Meaning, T: seq<nat>, F: seq<nat>) {
    m.o0.Exit? ==> m.o0.j !in Members(T) && m.o0.j !in Members(F)
  }

  lemma MeansOutside(s: Code, e: ExpDesc, T: seq<nat>, F: seq<nat>, m: Meaning)
    requires Means(s, e, T, F, m)
    ensures Outside(m, T, F)
  {}

  // What remains after the last test: one list leaves, the other goes on.
  method LeaveIf(fs: FuncState, e: ExpDesc, j: int, cond: bool, ghost T: seq<nat>, ghost F: seq<nat>, ghost xs: seq<nat>, ghost m: Meaning) returns (ok: bool, list: int)
    requires fs.Valid() && Lists(fs, e, T, F, xs) && IsList(fs.code, j, xs)
    modifies fs`code, fs`jpc, fs`jumps, fs`pend, fs`lasttarget
    ensures !ok ==> fs.AtLimit()
    ensures var K := if cond then T else F;
      ok ==> fs.Valid() && IsList(fs.code, list, K + xs) && NoDup(K + xs) && Members(K + xs) <= fs.pend
             && Frame(old(fs.View()), fs.View(), Members(T) + Members(F) + Members(xs), Members(K + xs))
    ensures ok && Branches(old(fs.View()), T, F, xs, cond, m) && Outside(m, T, F)
            ==> Conds(fs.View(), (if cond then T else F) + xs, !cond, m)
  {
    hide WF, IsList, NoDup, Frame, Members, Relinked, Branches, Conds;
    ghost var s := fs.View();
    if cond {
      ok, list := Leave(fs, e.t, j, e.f, T, xs, F);
    } else {
      ok, list := Leave(fs, e.f, j, e.t, F, xs, T);
    }
    if ok {
      if Branches(s, T, F, xs, cond, m) && Outside(m, T, F) { LeftConds(s, fs.View(), T, F, xs, cond, m); }
      assert Members(T) + Members(xs) + Members(F) == Members(T) + Members(F) + Members(xs);
      assert Members(F) + Members(xs) + Members(T) == Members(T) + Members(F) + Members(xs);
    }
  }

  // The last test of an expression that has been discharged: the jumps xs leave it when the value is as 'cond' says.
  ghost predicate LastTest(fs: FuncState, s: Code, e: ExpDesc, T: seq<nat>, F: seq<nat>, j: int, xs: seq<nat>, cond: bool, m: Meaning)
    reads fs
  {
    && fs.Valid() && Lists(fs, e, T, F, xs) && IsList(fs.code, j, xs)
    && Frame(s, fs.View(), Own(e, T, F), Members(T) + Members(F) + Members(xs))
    && (fs.k <= m.env.k ==> Branches(fs.View(), T, F, xs, cond, m))
  }

  lemma NothingTested(fs: FuncState, e: ExpDesc, T: seq<nat>, F: seq<nat>, cond: bool, m: Meaning)
    requires fs.Valid() && Exp(fs, e, T, F) && Computes(fs, e, T, F, m) && Fresh(fs.k, e)
    requires if cond then e.k.VNil? || e.k.VFalse? else e.k.VK? || e.k.VKInt? || e.k.VTrue?
    ensures LastTest(fs, fs.View(), e, T, F, NO_JUMP, [], cond, m)
  {
    JmpLists(fs, e, T, F);
    FrameRefl(fs.View(), Own(e, T, F)) by { OwnPending(fs.View(), fs.k, fs.nactvar, fs.freereg, e, T, F); }
    hide Means, Branches;
    if fs.k <= m.env.k { ConstBranches(fs.View(), fs.k, e, T, F, cond, m); }
  }

  lemma JumpTested(fs: FuncState, e: ExpDesc, T: seq<nat>, F: seq<nat>, m: Meaning)
    requires fs.Valid() && Exp(fs, e, T, F) && Computes(fs, e, T, F, m) && e.k.VJmp?
    ensures LastTest(fs, fs.View(), e, T, F, e.info, [e.info], true, m)
  {
    JmpLists(fs, e, T, F);
    FrameRefl(fs.View(), Own(e, T, F)) by { OwnPending(fs.View(), fs.k, fs.nactvar, fs.freereg, e, T, F); }
    hide Means, Branches;
    if fs.k <= m.env.k { JmpBranches(fs.View(), e, T, F, m); }
  }

  lemma InvertTested(fs: FuncState, s: Code, e: ExpDesc, T: seq<nat>, F: seq<nat>, m: Meaning)
    requires fs.Valid() && Exp(fs, e, T, F) && ExpOk(s, fs.k, fs.nactvar, fs.freereg, e, T, F) && e.k.VJmp?
    requires fs.View() == InvertedCode(s) && Frame(s, fs.View(), {}, {}) && (fs.k <= m.env.k ==> Means(s, e, T, F, m))
    ensures LastTest(fs, s, e, T, F, e.info, [e.info], false, m)
  {
    hide Means, Branches;
    JmpLists(fs, e, T, F);
    FrameAll(s, fs.View(), Own(e, T, F));
    if fs.k <= m.env.k { InvertBranches(s, e, T, F, m); }
  }

  lemma OneJump(e: ExpDesc, T: seq<nat>, F: seq<nat>, j: nat)
    ensures Members([j]) == {j} && (!e.k.VJmp? ==> Own(e, T, F) == Members(T) + Members(F))
  {}

  // luaK_goiftrue: the code goes on if the value is true; 'list' leaves it.
  method GoIfTrue(fs: FuncState, e: ExpDesc, ghost T: seq<nat>, ghost F: seq<nat>, ghost m: Meaning)
    returns (ok: bool, list: int, ghost exits: seq<nat>)
    requires fs.Valid() && Exp(fs, e, T, F) && Computes(fs, e, T, F, m) && OnTop(fs, e) && m.lo <= Top(fs, e) && Fresh(fs.k, e)
    modifies fs`code, fs`jpc, fs`jumps, fs`pend, fs`lasttarget, fs`k, fs`h, fs`freereg, fs`maxstacksize
    ensures !ok ==> fs.AtLimit()
    ensures ok ==> fs.Valid() && old(fs.k) <= fs.k && fs.freereg == old(Top(fs, e))
    ensures ok ==> IsList(fs.code, list, exits) && NoDup(exits) && Members(exits) <= fs.pend
    ensures ok ==> Frame(old(fs.View()), fs.View(), Own(e, T, F), Members(exits))
    ensures ok && fs.k <= m.env.k ==> Conds(fs.View(), exits, true, m)
  {
    hide WF, Means, IsList, NoDup, Members, Branches, Frame, Conds, Exec;
    ghost var s := fs.View();
    var e1;
    var j := NO_JUMP;
    ghost var xs := [];
    exits := [];
    list := NO_JUMP;
    OwnPending(s, fs.k, fs.nactvar, fs.freereg, e, T, F);
    ok, e1 := DischargeVars(fs, e, T, F, m);
    if !ok {
      return;
    }
    ghost var s1 := fs.View();
    OwnSame(e, e1, T, F);
    ok, j, xs := TestTrue(fs, e1, T, F, m);
    if !ok {
      return;
    }
    ghost var s2 := fs.View();
    FrameChainAgain(s, s1, s2, e, T, F, Members(T) + Members(F) + Members(xs));
    ok, list := LeaveIf(fs, e1, j, false, T, F, xs, m);
    exits := F + xs;
    if ok {
      FrameTrans(s, s2, fs.View(), Own(e, T, F), Members(T) + Members(F) + Members(xs), Members(exits));
      if fs.k <= m.env.k { MeansOutside(s, e, T, F, m); }
    }
  }

  // Its last test.
  method TestTrue(fs: FuncState, e: ExpDesc, ghost T: seq<nat>, ghost F: seq<nat>, ghost m: Meaning)
    returns (ok: bool, j: int, ghost xs: seq<nat>)
    requires fs.Valid() && Exp(fs, e, T, F) && Computes(fs, e, T, F, m) && OnTop(fs, e) && m.lo <= Top(fs, e) && Fresh(fs.k, e)
    requires !e.k.VLocal? && !e.k.VUpval?
    modifies fs`code, fs`jpc, fs`jumps, fs`pend, fs`k, fs`h, fs`freereg, fs`maxstacksize
    ensures !ok ==> fs.AtLimit()
    ensures ok ==> old(fs.k) <= fs.k && fs.freereg == old(Top(fs, e))
    ensures ok ==> LastTest(fs, old(fs.View()), e, T, F, j, xs, false, m)
  {
    hide WF, Means, IsList, NoDup, TwoLists, Branches, Frame, Exec;
    ok, j, xs := true, NO_JUMP, [];
    if e.k.VJmp? {
      ghost var s := fs.View();
      InvertJump(fs, e, T, F);
      InvertTested(fs, s, e, T, F, m);
      j := e.info;
      xs := [j];
    } else if e.k.VK? || e.k.VKInt? || e.k.VTrue? {  // no jump for a true constant
      NothingTested(fs, e, T, F, false, m);
    } else {
      ok, j := JumpOnCond(fs, e, T, F, false, m);
      xs := [j];
      OneJump(e, T, F, j);
    }
  }

  // luaK_goiffalse: the code goes on if the value is false.
  method GoIfFalse(fs: FuncState, e: ExpDesc, ghost T: seq<nat>, ghost F: seq<nat>, ghost m: Meaning)
    returns (ok: bool, list: int, ghost exits: seq<nat>)
    requires fs.Valid() && Exp(fs, e, T, F) && Computes(fs, e, T, F, m) && OnTop(fs, e) && m.lo <= Top(fs, e) && Fresh(fs.k, e)
    modifies fs`code, fs`jpc, fs`jumps, fs`pend, fs`lasttarget, fs`k, fs`h, fs`freereg, fs`maxstacksize
    ensures !ok ==> fs.AtLimit()
    ensures ok ==> fs.Valid() && old(fs.k) <= fs.k && fs.freereg == old(Top(fs, e))
    ensures ok ==> IsList(fs.code, list, exits) && NoDup(exits) && Members(exits) <= fs.pend
    ensures ok ==> Frame(old(fs.View()), fs.View(), Own(e, T, F), Members(exits))
    ensures ok && fs.k <= m.env.k ==> Conds(fs.View(), exits, false, m)
  {
    hide WF, Means, IsList, NoDup, Members, Branches, Frame, Conds, Exec;
    ghost var s := fs.View();
    var e1;
    var j := NO_JUMP;
    ghost var xs := [];
    exits := [];
    list := NO_JUMP;
    OwnPending(s, fs.k, fs.nactvar, fs.freereg, e, T, F);
    ok, e1 := DischargeVars(fs, e, T, F, m);
    if !ok {
      return;
    }
    ghost var s1 := fs.View();
    OwnSame(e, e1, T, F);
    ok, j, xs := TestFalse(fs, e1, T, F, m);
    if !ok {
      return;
    }
    ghost var s2 := fs.View();
    FrameChainAgain(s, s1, s2, e, T, F, Members(T) + Members(F) + Members(xs));
    ok, list := LeaveIf(fs, e1, j, true, T, F, xs, m);
    exits := T + xs;
    if ok {
      FrameTrans(s, s2, fs.View(), Own(e, T, F), Members(T) + Members(F) + Members(xs), Members(exits));
      if fs.k <= m.env.k { MeansOutside(s, e, T, F, m); }
    }
  }

  method TestFalse(fs: FuncState, e: ExpDesc, ghost T: seq<nat>, ghost F: seq<nat>, ghost m: Meaning)
    returns (ok: bool, j: int, ghost xs: seq<nat>)
    requires fs.Valid() && Exp(fs, e, T, F) && Computes(fs, e, T, F, m) && OnTop(fs, e) && m.lo <= Top(fs, e) && Fresh(fs.k, e)
    requires !e.k.VLocal? && !e.k.VUpval?
    modifies fs`code, fs`jpc, fs`jumps, fs`pend, fs`k, fs`h, fs`freereg, fs`maxstacksize
    ensures !ok ==> fs.AtLimit()
    ensures ok ==> old(fs.k) <= fs.k && fs.freereg == old(Top(fs, e))
    ensures ok ==> LastTest(fs, old(fs.View()), e, T, F, j, xs, true, m)
  {
    hide WF, Means, IsList, NoDup, TwoLists, Branches, Frame, Exec;
    ok, j, xs := true, NO_JUMP, [];
    if e.k.VJmp? {
      JumpTested(fs, e, T, F, m);
      j := e.info;
      xs := [j];
    } else if e.k.VNil? || e.k.VFalse? {  // no jump for a false one
      NothingTested(fs, e, T, F, true, m);
    } else {
      ok, j := JumpOnCond(fs, e, T, F, true, m);
      xs := [j];
      OneJump(e, T, F, j);
    }
  }
}
