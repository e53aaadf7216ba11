// Compiling expressions (lparser.c and lcode.c): the code leaves the value of the
// expression, as the language defines it, in the target register.

module CompileExp {
  import opened Common
  import opened LuaVM
  import opened JumpCode
  import opened CodeState
  import opened CodeGen
  import opened ExpMeaning
  import opened LuaK
  import opened CondCode
  import opened NotCode
  import opened CompareCode
  import opened ExpCode

  datatype BinCmp = EQ | NE | LT | LE | GT | GE

  datatype Expr =
    | ENil | ETrue | EFalse
    | EStr(s: string)
    | EInt(n: int)
    | ELocal(reg: nat)
    | EUpval(idx: nat)
    | ENot(a: Expr)
    | EAnd(a: Expr, b: Expr)
    | EOr(a: Expr, b: Expr)
    | ECmp(cmp: BinCmp, a: Expr, b: Expr)

  // -------------------------------------------------------------------- the language

  // The value of an expression; None is an error.
  function Eval(x: Expr, up: seq<Value>, r: Regs): Option<Value> {
    match x
    case ENil => Some(Nil)
    case ETrue => Some(Bool(true))
    case EFalse => Some(Bool(false))
    case EStr(s) => Some(Str(s))
    case EInt(n) => Some(Int(n))
    case ELocal(i) => Some(At(r, i))
    case EUpval(i) => Some(At(up, i))
    case ENot(a) => (match Eval(a, up, r) case None => None case Some(v) => Some(Bool(IsFalse(v))))
    case EAnd(a, b) => (match Eval(a, up, r) case None => None case Some(v) => if IsFalse(v) then Some(v) else Eval(b, up, r))
    case EOr(a, b) => (match Eval(a, up, r) case None => None case Some(v) => if IsFalse(v) then Eval(b, up, r) else Some(v))
    case ECmp(op, a, b) =>
      (match (Eval(a, up, r), Eval(b, up, r))
       case (Some(v), Some(w)) => EvalCmp(op, v, w)
       case _ => None)
  }

  function EvalCmp(op: BinCmp, v: Value, w: Value): Option<Value> {
    match op
    case EQ => Some(Bool(v == w))
    case NE => Some(Bool(v != w))
    case LT => Truth(Compare(Lt, v, w))
    case LE => Truth(Compare(Le, v, w))
    case GT => Truth(Compare(Lt, w, v))
    case GE => Truth(Compare(Le, w, v))
  }

  function Truth(b: Option<bool>): Option<Value> {
    match b case None => None case Some(x) => Some(Bool(x))
  }

  // The local variables of an expression are active.
  predicate Scoped(x: Expr, nactvar: nat) {
    match x
    case ELocal(i) => i < nactvar
    case ENot(a) => Scoped(a, nactvar)
    case EAnd(a, b) => Scoped(a, nactvar) && Scoped(b, nactvar)
    case EOr(a, b) => Scoped(a, nactvar) && Scoped(b, nactvar)
    case ECmp(_, a, b) => Scoped(a, nactvar) && Scoped(b, nactvar)
    case _ => true
  }

  // Only the local variables matter.
  lemma {:induction false} EvalLocals(x: Expr, up: seq<Value>, r: Regs, r': Regs, nactvar: nat)
    requires Scoped(x, nactvar) && forall i :: 0 <= i < nactvar ==> At(r, i) == At(r', i)
    ensures Eval(x, up, r) == Eval(x, up, r')
  {
    match x {
      case ENot(a) =>
        EvalLocals(a, up, r, r', nactvar);
      case EAnd(a, b) =>
        EvalLocals(a, up, r, r', nactvar);
        EvalLocals(b, up, r, r', nactvar);
      case EOr(a, b) =>
        EvalLocals(a, up, r, r', nactvar);
        EvalLocals(b, up, r, r', nactvar);
      case ECmp(_, a, b) =>
        EvalLocals(a, up, r, r', nactvar);
        EvalLocals(b, up, r, r', nactvar);
      case _ =>
    }
  }

  // ----------------------------------------------------------------------- compilation

  function RegsOf(o: Outcome): Regs {
    if o.Fall? then o.r else []
  }

  function ValueAt(x: Expr, env: Env, o: Outcome): Option<Value> {
    Eval(x, env.up, RegsOf(o))
  }

  // The expression is compiled here; registers below m.lo, among them the local
  // variables, have to survive.
  ghost predicate Begins(fs: FuncState, x: Expr, m: Meaning)
    reads fs
  {
    && fs.Valid() && Scoped(x, fs.nactvar) && Proper(m) && m.o0 == Out(fs.View(), m.env, m.r)
    && fs.nactvar <= m.lo <= fs.freereg && m.lo <= m.dst && m.v == ValueAt(x, m.env, m.o0)
  }

  ghost predicate Compiled(fs: FuncState, s: Code, k: seq<Value>, freereg: nat, e: ExpDesc, T: seq<nat>, F: seq<nat>, m: Meaning)
    reads fs
  {
    && fs.Valid() && k <= fs.k && fs.freereg == freereg && Templess(fs.nactvar, e) && Fresh(fs.k, e)
    && Exp(fs, e, T, F) && Computes(fs, e, T, F, m) && Frame(s, fs.View(), {}, Own(e, T, F))
  }

  function Plainly(k: Kind, info: nat, ival: int): ExpDesc {
    ExpDesc(k, info, ival, NO_JUMP, NO_JUMP)
  }

  lemma SimpleCompiled(fs: FuncState, x: Expr, e: ExpDesc, m: Meaning)
    requires Begins(fs, x, m) && e.t == NO_JUMP && e.f == NO_JUMP
    requires match x
             case ENil => e.k.VNil?
             case ETrue => e.k.VTrue?
             case EFalse => e.k.VFalse?
             case EStr(s) => e.k.VK? && e.info < |fs.k| && fs.k[e.info] == Str(s)
             case EInt(n) => e.k.VKInt? && e.ival == n
             case ELocal(i) => e.k.VLocal? && e.info == i
             case EUpval(i) => e.k.VUpval? && e.info == i
             case _ => false
    ensures Compiled(fs, fs.View(), fs.k, fs.freereg, e, [], [], m)
  {
    SameFrame(fs.View());
    OutOk(fs.View(), m.env, m.r);
  }

  // simpleexp and singlevar.
  method CompileSimple(fs: FuncState, x: Expr, ghost m: Meaning) returns (ok: bool, e: ExpDesc)
    requires Begins(fs, x, m) && !x.ENot? && !x.EAnd? && !x.EOr? && !x.ECmp?
    modifies fs`k, fs`h
    ensures !ok ==> fs.AtLimit()
    ensures ok ==> Compiled(fs, old(fs.View()), old(fs.k), old(fs.freereg), e, [], [], m)
  {
    ok := true;
    match x {
      case ENil =>
        e := Plainly(VNil, 0, 0);
      case ETrue =>
        e := Plainly(VTrue, 0, 0);
      case EFalse =>
        e := Plainly(VFalse, 0, 0);
      case EStr(s) =>
        var index;
        ok, index := fs.AddK(Str(s));
        e := Plainly(VK, index, 0);
        if !ok {
          return;
        }
      case EInt(n) =>
        e := Plainly(VKInt, 0, n);
      case ELocal(i) =>
        e := Plainly(VLocal, i, 0);
      case EUpval(i) =>
        e := Plainly(VUpval, i, 0);
    }
    SimpleCompiled(fs, x, e, m);
  }

  // subexpr, on the tree of the expression.
  method Compile(fs: FuncState, x: Expr, ghost m: Meaning) returns (ok: bool, e: ExpDesc, ghost T: seq<nat>, ghost F: seq<nat>)
    requires Begins(fs, x, m)
    modifies fs`code, fs`jpc, fs`jumps, fs`pend, fs`lasttarget, fs`k, fs`h, fs`freereg, fs`maxstacksize
    ensures !ok ==> fs.AtLimit()
    ensures ok ==> Compiled(fs, old(fs.View()), old(fs.k), old(fs.freereg), e, T, F, m)
    decreases x, 1
  {
    T, F := [], [];
    match x {
      case ENot(a) =>
        ok, e, T, F := CompileNot(fs, x, a, m);
      case EAnd(a, b) =>
        ok, e, T, F := CompileJoin(fs, x, true, a, b, m);
      case EOr(a, b) =>
        ok, e, T, F := CompileJoin(fs, x, false, a, b, m);
      case ECmp(op, a, b) =>
        ok, e := CompileCmp(fs, x, op, a, b, m);
      case _ =>
        ok, e := CompileSimple(fs, x, m);
    }
  }

  method CompileNot(fs: FuncState, x: Expr, a: Expr, ghost m: Meaning) returns (ok: bool, e: ExpDesc, ghost T: seq<nat>, ghost F: seq<nat>)
    requires Begins(fs, x, m) && x == ENot(a)
    modifies fs`code, fs`jpc, fs`jumps, fs`pend, fs`lasttarget, fs`k, fs`h, fs`freereg, fs`maxstacksize
    ensures !ok ==> fs.AtLimit()
    ensures ok ==> Compiled(fs, old(fs.View()), old(fs.k), old(fs.freereg), e, T, F, m)
    decreases x, 0
  {
    hide WF, Means, Frame, IsList, NoDup, TwoLists, ExpShape;
    ghost var s := fs.View();
    ghost var m1 := m.(v := ValueAt(a, m.env, m.o0));
    ok, e, F, T := Compile(fs, a, m1);
    if !ok {
      return;
    }
    ghost var s1 := fs.View();
    TemplessTop(fs, e);
    ghost var e1 := e;
    ok, e := CodeNot(fs, e, F, T, m1);
    if ok {
      FrameTrans(s, s1, fs.View(), {}, Own(e1, F, T), Own(e, T, F));
      assert Negated(m1) == m;
    }
  }

  lemma TemplessTop(fs: FuncState, e: ExpDesc)
    requires Templess(fs.nactvar, e)
    ensures OnTop(fs, e) && Top(fs, e) == fs.freereg
  {}

  lemma LocalActive(fs: FuncState, e: ExpDesc, T: seq<nat>, F: seq<nat>)
    requires Exp(fs, e, T, F)
    ensures e.k.VLocal? ==> e.info < fs.nactvar
  {}

  method CompileJoin(fs: FuncState, x: Expr, isAnd: bool, a: Expr, b: Expr, ghost m: Meaning)
    returns (ok: bool, e: ExpDesc, ghost T: seq<nat>, ghost F: seq<nat>)
    requires Begins(fs, x, m) && x == if isAnd then EAnd(a, b) else EOr(a, b)
    modifies fs`code, fs`jpc, fs`jumps, fs`pend, fs`lasttarget, fs`k, fs`h, fs`freereg, fs`maxstacksize
    ensures !ok ==> fs.AtLimit()
    ensures ok ==> Compiled(fs, old(fs.View()), old(fs.k), old(fs.freereg), e, T, F, m)
    decreases x, 0
  {
    hide WF, Means, Frame, IsList, NoDup, TwoLists, ExpShape, Conds, Members, Out, Own, KeepsJump, Disjoint, Joined, Eval;
    ghost var s := fs.View();
    ghost var m1 := m.(v := ValueAt(a, m.env, m.o0));
    ghost var k0 := fs.k;
    T, F := [], [];
    var l;
    ghost var xs;
    ok, e, l, xs := FirstOperand(fs, isAnd, a, m1);
    if !ok {
      return;
    }
    ghost var s1 := fs.View();
    ghost var m2 := SecondMeaning(s1, b, m1);
    SecondBegins(fs, s, x, a, b, m1, m2);
    ok, e, T, F := Compile(fs, b, m2);
    if !ok {
      return;
    }
    ghost var s2 := fs.View();
    ghost var e2, T2, F2 := e, T, F;
    LocalActive(fs, e, T, F);
    OperandsApart(s, s1, s2, l, xs, e, T, F, m1);
    ok, e := Join(fs, isAnd, l, e, T, F, xs, s1, m1, m2);
    T := JoinT(isAnd, T, xs);
    F := JoinF(isAnd, F, xs);
    if ok {
      JoinFrame(s, s1, s2, fs.View(), Members(xs), Own(e2, T2, F2), Own(e, T, F));
      if fs.k <= m.env.k { JoinValue(fs.nactvar, x, isAnd, a, b, s1, xs, m, m1, m2); }
    }
  }

  // The first operand of 'and' and 'or', with its jumps.
  method FirstOperand(fs: FuncState, isAnd: bool, a: Expr, ghost m: Meaning)
    returns (ok: bool, e: ExpDesc, l: int, ghost xs: seq<nat>)
    requires Begins(fs, a, m)
    modifies fs`code, fs`jpc, fs`jumps, fs`pend, fs`lasttarget, fs`k, fs`h, fs`freereg, fs`maxstacksize
    ensures !ok ==> fs.AtLimit()
    ensures ok ==> fs.Valid() && old(fs.k) <= fs.k && fs.freereg == old(fs.freereg) && IsList(fs.code, l, xs) && NoDup(xs)
    ensures ok ==> Members(xs) <= fs.pend && Frame(old(fs.View()), fs.View(), {}, Members(xs))
    ensures ok && fs.k <= m.env.k ==> Conds(fs.View(), xs, isAnd, m)
    decreases a, 2
  {
    hide WF, Means, Frame, IsList, NoDup, TwoLists, ExpShape, Conds, Members, Out;
    ghost var s := fs.View();
    ghost var T, F;
    l, xs := NO_JUMP, [];
    ok, e, T, F := Compile(fs, a, m);
    if !ok {
      return;
    }
    ghost var s1 := fs.View();
    TemplessTop(fs, e);
    if isAnd {
      ok, l, xs := GoIfTrue(fs, e, T, F, m);
    } else {
      ok, l, xs := GoIfFalse(fs, e, T, F, m);
    }
    if ok {
      FrameTrans(s, s1, fs.View(), {}, Own(e, T, F), Members(xs));
    }
  }

  function SecondMeaning(s1: Code, b: Expr, m1: Meaning): Meaning {
    var o := Out(s1, m1.env, m1.r);
    m1.(o0 := o, v := ValueAt(b, m1.env, o))
  }

  lemma SecondBegins(fs: FuncState, s: Code, x: Expr, a: Expr, b: Expr, m1: Meaning, m2: Meaning)
    requires fs.Valid() && Scoped(b, fs.nactvar) && Proper(m1) && m2 == SecondMeaning(fs.View(), b, m1)
    requires fs.nactvar <= m1.lo <= fs.freereg && m1.lo <= m1.dst
    ensures Begins(fs, b, m2) && Continues(fs.View(), m1, m2)
  {
    OutOk(fs.View(), m1.env, m1.r);
  }

  // The jumps of the operands are apart from one another.
  lemma OperandsApart(s: Code, s1: Code, s2: Code, l: int, xs: seq<nat>, e: ExpDesc, T: seq<nat>, F: seq<nat>, m: Meaning)
    requires WF(s) && m.o0 == Out(s, m.env, m.r) && IsList(s1.code, l, xs) && Members(xs) <= s1.pend
    requires Frame(s, s1, {}, Members(xs)) && Frame(s1, s2, {}, Own(e, T, F))
    ensures IsList(s2.code, l, xs) && Members(xs) <= s2.pend && Disjoint(e, T, F, xs)
    ensures forall j :: j in xs ==> KeepsJump(s1.code, s2.code, j)
    ensures m.o0.Exit? ==> m.o0.j !in xs
  {
    FrameList(s1, s2, {}, Own(e, T, F), l, xs);
    OutOk(s, m.env, m.r);
    assert forall j :: j in xs ==> j in Members(xs);
  }

  lemma JoinFrame(s: Code, s1: Code, s2: Code, s3: Code, xs: set<nat>, own: set<nat>, own': set<nat>)
    requires Frame(s, s1, {}, xs) && Frame(s1, s2, {}, own) && Frame(s2, s3, own + xs, own')
    ensures Frame(s, s3, {}, own')
  {
    forall j | j in s.pend ensures KeepsJump(s.code, s3.code, j) {
      assert KeepsJump(s.code, s1.code, j) && KeepsJump(s1.code, s2.code, j) && KeepsJump(s2.code, s3.code, j);
    }
  }

  lemma JoinValue(nactvar: nat, x: Expr, isAnd: bool, a: Expr, b: Expr, s1: Code, xs: seq<nat>, m: Meaning, m1: Meaning, m2: Meaning)
    requires x == (if isAnd then EAnd(a, b) else EOr(a, b)) && Scoped(x, nactvar) && nactvar <= m.lo <= m.dst
    requires m.v == ValueAt(x, m.env, m.o0) && m1 == m.(v := ValueAt(a, m.env, m.o0)) && m2 == SecondMeaning(s1, b, m1)
    requires Conds(s1, xs, isAnd, m1)
    ensures Joined(isAnd, m1.v, m2.v) == m.v
  {
    var o := m2.o0;
    if m.o0.Fall? && o.Fall? && m1.v.Some? && IsFalse(m1.v.value) != isAnd {
      EvalLocals(b, m.env.up, o.r, m.o0.r, nactvar);
    }
  }

  // The operator that is used, and whether its operands are as written.
  function OpOf(op: BinCmp): CmpOp {
    match op
    case EQ => Eq
    case NE => Eq
    case LT => Lt
    case LE => Le
    case GT => Lt
    case GE => Le
  }

  predicate Direct(op: BinCmp) {
    op.EQ? || op.LT? || op.LE?
  }

  lemma CmpEval(op: BinCmp, v: Option<Value>, w: Option<Value>)
    ensures CmpValue(OpOf(op), Direct(op), v, w) == (match (v, w) case (Some(x), Some(y)) => EvalCmp(op, x, y) case _ => None)
  {}

  function OperandMeaning(s1: Code, b: Expr, lo: nat, m1: Meaning): Meaning {
    var o := Out(s1, m1.env, m1.r);
    Meaning(m1.env, m1.r, lo, lo, o, ValueAt(b, m1.env, o))
  }

  lemma OperandBegins(fs: FuncState, b: Expr, m1: Meaning, m2: Meaning)
    requires fs.Valid() && Scoped(b, fs.nactvar) && Proper(m1) && m2 == OperandMeaning(fs.View(), b, fs.freereg, m1)
    requires m1.lo <= fs.freereg && m1.lo <= m1.dst
    ensures Begins(fs, b, m2) && Follows(fs.View(), m1, m2) && Proper(m2) && m2.lo == fs.freereg
  {
    OutOk(fs.View(), m1.env, m1.r);
  }

  lemma CmpValueIs(nactvar: nat, x: Expr, op: BinCmp, a: Expr, b: Expr, s1: Code, y: nat, lo: nat, m: Meaning, m1: Meaning, m2: Meaning)
    requires x == ECmp(op, a, b) && Scoped(x, nactvar) && nactvar <= m.lo <= m.dst && Operand(s1, y, m1)
    requires m.v == ValueAt(x, m.env, m.o0) && m1 == m.(v := ValueAt(a, m.env, m.o0)) && m2 == OperandMeaning(s1, b, lo, m1)
    ensures m1.(v := CmpValue(OpOf(op), Direct(op), m1.v, m2.v)) == m
  {
    var o := m2.o0;
    if m.o0.Fall? && o.Fall? {
      EvalLocals(b, m.env.up, o.r, m.o0.r, nactvar);
    }
    CmpEval(op, m1.v, m2.v);
  }

  // The first operand, in a register or a constant.
  method FirstRK(fs: FuncState, a: Expr, ghost m: Meaning) returns (ok: bool, e: ExpDesc, x: nat)
    requires Begins(fs, a, m)
    modifies fs`code, fs`jpc, fs`jumps, fs`pend, fs`lasttarget, fs`k, fs`h, fs`freereg, fs`maxstacksize
    ensures !ok ==> fs.AtLimit()
    ensures ok ==> fs.Valid() && old(fs.k) <= fs.k && IsRK(e, x) && Held1(fs, e, old(fs.freereg)) && Exp(fs, e, [], [])
    ensures ok ==> Frame(old(fs.View()), fs.View(), {}, {}) && (fs.k <= m.env.k ==> Operand(fs.View(), x, m))
    decreases a, 2
  {
    hide WF, Means, Frame, IsList, NoDup, TwoLists, ExpShape, Out, Operand;
    ghost var s := fs.View();
    ghost var T, F;
    x := 0;
    ok, e, T, F := Compile(fs, a, m);
    if !ok {
      return;
    }
    ghost var s1 := fs.View();
    ghost var e1 := e;
    TemplessTop(fs, e);
    ok, e, x := Exp2RK(fs, e, T, F, m);
    if ok {
      FrameTrans(s, s1, fs.View(), {}, Own(e1, T, F), {});
      if fs.k <= m.env.k { OperandMeans(fs.View(), e, x, m); }
    }
  }

  // An operand stays one while the code grows.
  lemma OperandStays(fs: FuncState, k: seq<Value>, e: ExpDesc, x: nat, freereg: nat, e2: ExpDesc)
    requires IsRK(e, x) && e.t == NO_JUMP && e.f == NO_JUMP && (e.k.VK? ==> e.info < |k|) && k <= fs.k
    requires e.k.VNonReloc? ==> e.info < fs.freereg
    ensures Exp(fs, e, [], [])
  {}

  lemma OperandLow(fs: FuncState, e: ExpDesc, x: nat)
    requires IsRK(e, x) && Exp(fs, e, [], [])
    ensures OperandKept(x, fs.freereg) && (e.k.VK? ==> e.info < |fs.k|) && (e.k.VNonReloc? ==> e.info < fs.freereg)
  {}

  lemma StartPending(s: Code, s1: Code, s2: Code, e: ExpDesc, T: seq<nat>, F: seq<nat>, m: Meaning)
    requires WF(s) && m.o0 == Out(s, m.env, m.r) && Frame(s, s1, {}, {}) && Frame(s1, s2, {}, Own(e, T, F))
    ensures m.o0.Exit? ==> m.o0.j in s2.pend && m.o0.j !in Own(e, T, F)
    ensures Frame(s, s2, {}, Own(e, T, F))
  {
    OutOk(s, m.env, m.r);
    FrameTrans(s, s1, s2, {}, {}, Own(e, T, F));
  }

  method CompileCmp(fs: FuncState, x: Expr, op: BinCmp, a: Expr, b: Expr, ghost m: Meaning) returns (ok: bool, e: ExpDesc)
    requires Begins(fs, x, m) && x == ECmp(op, a, b)
    modifies fs`code, fs`jpc, fs`jumps, fs`pend, fs`lasttarget, fs`k, fs`h, fs`freereg, fs`maxstacksize
    ensures !ok ==> fs.AtLimit()
    ensures ok ==> Compiled(fs, old(fs.View()), old(fs.k), old(fs.freereg), e, [], [], m)
    decreases x, 0
  {
    hide WF, Means, Frame, IsList, NoDup, TwoLists, ExpShape, Out, Operand, ExpOk, OperandMeaning, ValueAt, OpOf, Direct, CmpValue;
    ghost var s := fs.View();
    ghost var m1 := m.(v := ValueAt(a, m.env, m.o0));
    var e1, y;
    ok, e1, y := FirstRK(fs, a, m1);
    e := e1;
    if !ok {
      return;
    }
    ghost var s1 := fs.View();
    ghost var lo := fs.freereg;
    ghost var m2 := OperandMeaning(s1, b, lo, m1);
    OperandBegins(fs, b, m1, m2);
    OperandLow(fs, e1, y);
    ghost var k1 := fs.k;
    var e2;
    ghost var T, F;
    ok, e2, T, F := Compile(fs, b, m2);
    if !ok {
      return;
    }
    ghost var s2 := fs.View();
    OperandStays(fs, k1, e1, y, fs.freereg, e2);
    StartPending(s, s1, s2, e2, T, F, m);
    ok, e := CodeComp(fs, OpOf(op), Direct(op), e1, e2, T, F, s1, y, m1, m2);
    if ok {
      FrameTrans(s, s2, fs.View(), {}, Own(e2, T, F), Own(e, [], []));
      if fs.k <= m.env.k { CmpValueIs(fs.nactvar, x, op, a, b, s1, y, lo, m, m1, m2); }
    }
  }
}
