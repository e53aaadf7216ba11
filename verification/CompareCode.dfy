// Code for comparisons, and for joining the operands of 'and' and 'or' (lcode.c).

module CompareCode {
  import opened Common
  import opened LuaVM
  import opened JumpCode
  import opened CodeState
  import opened FrameSize
  import opened CodeGen
  import opened ExpMeaning
  import opened LuaK

  // ------------------------------------------------------------------------ comparisons

  // The comparison of two values, if they can be compared.
  function Compared(op: CmpOp, v: Option<Value>, w: Option<Value>): Option<Value> {
    match (v, w)
    case (Some(x), Some(y)) => (match Compare(op, x, y) case None => None case Some(b) => Some(Bool(b)))
    case _ => None
  }

  function NotCompared(v: Option<Value>): Option<Value> {
    match v case None => None case Some(x) => Some(Bool(IsFalse(x)))
  }

  // The register of an operand stays as it is while the next one is computed.
  ghost predicate OperandKept(x: nat, lo: nat) {
    x >= BITRK || x < lo
  }

  // m1, m2: the meanings of the operands; the second begins where the first ends.
  ghost predicate Follows(s1: Code, m1: Meaning, m2: Meaning) {
    m2.env == m1.env && m2.r == m1.r && m2.o0 == Out(s1, m1.env, m1.r) && m1.lo <= m2.lo && m1.lo <= m1.dst && m2.lo <= m2.dst
  }

  lemma BothOperands(s1: Code, s2: Code, x: nat, y: nat, m1: Meaning, m2: Meaning)
    requires Operand(s1, x, m1) && Operand(s2, y, m2) && Follows(s1, m1, m2) && OperandKept(x, m2.lo)
    ensures var o := Out(s2, m1.env, m1.r);
      if !m1.o0.Fall? then o == m1.o0
      else if m1.v.None? || m2.v.None? then o == Fault
      else o.Fall? && Same(m1, o.r) && RK(m1.env, o.r, x) == m1.v.value && RK(m1.env, o.r, y) == m2.v.value
  {
    var o1 := Out(s1, m1.env, m1.r);
    if m1.o0.Fall? && m1.v.Some? && m2.v.Some? {
      var o := Out(s2, m1.env, m1.r);
      assert o.Fall? && Same(m2, o.r);
      assert x < m2.lo ==> At(o.r, x) == At(o1.r, x);
      assert forall i :: 0 <= i < m1.lo ==> At(o.r, i) == At(o1.r, i);
    }
  }

  function JmpExp(j: nat): ExpDesc {
    ExpDesc(VJmp, j, 0, NO_JUMP, NO_JUMP)
  }

  // The test of op, whose jump is taken if the result is as 'cond' says.
  lemma CmpMeans(s: Code, op: CmpOp, cond: bool, x: nat, y: nat, v: Option<Value>, w: Option<Value>, m: Meaning)
    requires WF(s) && Proper(m) && (m.o0.Exit? ==> m.o0.j in s.pend)
    requires var o := Out(s, m.env, m.r);
      if !m.o0.Fall? then o == m.o0
      else if v.None? || w.None? then o == Fault
      else o.Fall? && Same(m, o.r) && RK(m.env, o.r, x) == v.value && RK(m.env, o.r, y) == w.value
    requires m.v == if cond then Compared(op, v, w) else NotCompared(Compared(op, v, w))
    ensures Means(Tested(s, Cmp(op, if cond then 1 else 0, x, y)), JmpExp(|s.code| + 1), [], [], m)
  {
    var i := Cmp(op, if cond then 1 else 0, x, y);
    EmitTest(s, i, m.env, m.r);
    forall j | j in s.pend ensures j < |s.code| { assert j in All(s) && JumpIn(s, j); }
    hide WF, Tested;
  }

  lemma CmpOk(fs: FuncState, s: Code, i: Instr)
    requires fs.Valid() && WF(s) && i.Cmp? && fs.View() == Tested(s, i)
    ensures Exp(fs, JmpExp(|s.code| + 1), [], []) && Frame(s, fs.View(), {}, {|s.code| + 1})
  {
    TestFrame(s, i, {});
    assert fs.code[|s.code|] == i && fs.code[|s.code| + 1] == Jmp(NO_JUMP);
  }

  // The value of an operand that is there already.
  function Present(s: Code, e: ExpDesc, m: Meaning): Meaning {
    var o := Out(s, m.env, m.r);
    Meaning(m.env, m.r, 0, 0, o, if o.Fall? then Some(KindValue(s.code, e, m.env, o.r)) else None)
  }

  lemma PresentMeans(s: Code, e: ExpDesc, m: Meaning)
    requires WF(s) && Proper(m) && IsOperand(e)
    ensures Proper(Present(s, e, m)) && Means(s, e, [], [], Present(s, e, m))
  {
    OutOk(s, m.env, m.r);
  }

  // Does the expression hold no register?
  predicate Templess(nactvar: nat, e: ExpDesc) {
    e.k.VNonReloc? ==> e.info < nactvar
  }

  // What codecomp computes: 'not op' for equality, and op with its operands exchanged otherwise.
  function CmpValue(op: CmpOp, cond: bool, v: Option<Value>, w: Option<Value>): Option<Value> {
    if cond then Compared(op, v, w) else if op.Eq? then NotCompared(Compared(op, v, w)) else Compared(op, w, v)
  }

  lemma SecondOperand(s1: Code, s: Code, e: ExpDesc, x: nat, m1: Meaning, m2: Meaning)
    requires Follows(s1, m1, m2) && Means(s, e, [], [], m2) && IsRK(e, x)
    ensures Operand(s, x, m2)
  {
    OperandMeans(s, e, x, m2);
  }

  lemma FramePending(s: Code, s': Code, own: set<nat>)
    requires Frame(s, s', own, {})
    ensures s'.pend == s.pend - own
  {}

  lemma FollowsEnv(s1: Code, m1: Meaning, m2: Meaning)
    requires Follows(s1, m1, m2)
    ensures m2.env == m1.env && m2.r == m1.r
  {}

  lemma PresentLow(s: Code, e: ExpDesc, m: Meaning)
    ensures Present(s, e, m).lo == 0
  {}

  // codecomp.
  method CodeComp(fs: FuncState, op: CmpOp, cond0: bool, e1: ExpDesc, e2: ExpDesc, ghost T: seq<nat>, ghost F: seq<nat>,
                  ghost s1: Code, ghost x1: nat, ghost m1: Meaning, ghost m2: Meaning) returns (ok: bool, e': ExpDesc)
    requires fs.Valid() && Exp(fs, e1, [], []) && IsRK(e1, x1) && !HasJumps(e1) && OnTop(fs, e1)
    requires Exp(fs, e2, T, F) && Computes(fs, e2, T, F, m2) && Templess(fs.nactvar, e2)
    requires m2.lo <= fs.freereg && Proper(m1) && Proper(m2) && OperandKept(x1, m2.lo) && Follows(s1, m1, m2)
    requires fs.k <= m1.env.k ==> Operand(s1, x1, m1)
    requires m1.o0.Exit? ==> m1.o0.j in fs.pend && m1.o0.j !in Own(e2, T, F)
    modifies fs`code, fs`jpc, fs`jumps, fs`pend, fs`lasttarget, fs`k, fs`h, fs`freereg, fs`maxstacksize
    ensures !ok ==> fs.AtLimit()
    ensures ok ==> fs.Valid() && old(fs.k) <= fs.k && fs.freereg == old(Top(fs, e1)) && e'.k.VJmp?
    ensures ok ==> Exp(fs, e', [], []) && Frame(old(fs.View()), fs.View(), Own(e2, T, F), Own(e', [], []))
    ensures ok ==> Computes(fs, e', [], [], m1.(v := CmpValue(op, cond0, m1.v, m2.v)))
  {
    hide InFrame, WF, Means, IsList, NoDup, TwoLists, Frame, Proper, Operand, EndsPlain, EndsTest, Follows, Own, Present, Exec, Shape, CmpValue;
    ghost var s := fs.View();
    e' := e1;
    ghost var m0 := Present(s, e1, m1);
    PresentMeans(s, e1, m1);
    PresentLow(s, e1, m1);
    FollowsEnv(s1, m1, m2);
    var e3, e4, o1, o2;
    ok, e3, o1 := Exp2RK(fs, e1, [], [], m0);
    if !ok {
      return;
    }
    ok, e4, o2 := Exp2RK(fs, e2, T, F, m2);
    if !ok {
      return;
    }
    ghost var s4 := fs.View();
    FreeExp(fs, e4);
    FreeExp(fs, e3);
    if fs.k <= m1.env.k { SecondOperand(s1, s4, e4, o2, m1, m2); }
    FramePending(s, s4, Own(e2, T, F));
    ok, e' := CompareOperands(fs, op, cond0, o1, o2, s1, m1, m2);
    if ok {
      FrameTrans(s, s4, fs.View(), Own(e2, T, F), {}, {e'.info});
    }
  }

  // Its last part, on the operands.
  method CompareOperands(fs: FuncState, op: CmpOp, cond0: bool, x1: nat, x2: nat,
                         ghost s1: Code, ghost m1: Meaning, ghost m2: Meaning) returns (ok: bool, e': ExpDesc)
    requires fs.Valid() && Proper(m1) && OperandKept(x1, m2.lo) && Follows(s1, m1, m2)
    requires OperandIn(x1, fs.maxstacksize) && OperandIn(x2, fs.maxstacksize)
    requires fs.k <= m1.env.k ==> Operand(s1, x1, m1) && Operand(fs.View(), x2, m2)
    requires m1.o0.Exit? ==> m1.o0.j in fs.pend
    modifies fs`code, fs`jpc, fs`jumps, fs`pend
    ensures !ok ==> fs.AtLimit()
    ensures ok ==> fs.Valid() && e'.k.VJmp? && Own(e', [], []) == {e'.info}
    ensures ok ==> Exp(fs, e', [], []) && Frame(old(fs.View()), fs.View(), {}, {e'.info})
    ensures ok ==> Computes(fs, e', [], [], m1.(v := CmpValue(op, cond0, m1.v, m2.v)))
  {
    hide WF, Means, IsList, NoDup, TwoLists, Frame, Proper, Operand;
    ghost var s := fs.View();
    var o1, o2, cond := x1, x2, cond0;
    if !cond && !op.Eq? {
      o1, o2 := o2, o1;  // a > b is b < a
      cond := true;
    }
    var i := Cmp(op, if cond then 1 else 0, o1, o2);
    var j;
    ok, j := fs.CondJump(i);
    e' := JmpExp(j);
    if ok {
      CmpOk(fs, s, i);
      if fs.k <= m1.env.k { OperandsCompared(s, op, cond0, x1, x2, s1, m1, m2); }
    }
  }

  lemma OperandsCompared(s: Code, op: CmpOp, cond: bool, x1: nat, x2: nat, s1: Code, m1: Meaning, m2: Meaning)
    requires WF(s) && Proper(m1) && OperandKept(x1, m2.lo) && Follows(s1, m1, m2)
    requires Operand(s1, x1, m1) && Operand(s, x2, m2) && (m1.o0.Exit? ==> m1.o0.j in s.pend)
    ensures var swap := !cond && !op.Eq?;
      Means(Tested(s, Cmp(op, if cond || swap then 1 else 0, if swap then x2 else x1, if swap then x1 else x2)), JmpExp(|s.code| + 1), [], [],
            m1.(v := CmpValue(op, cond, m1.v, m2.v)))
  {
    BothOperands(s1, s, x1, x2, m1, m2);
    var m := m1.(v := CmpValue(op, cond, m1.v, m2.v));
    hide WF, Means, Operand;
    if !cond && !op.Eq? {
      CmpMeans(s, op, true, x2, x1, m2.v, m1.v, m);
    } else {
      CmpMeans(s, op, cond, x1, x2, m1.v, m2.v, m);
    }
  }
}
