// Expressions at work: new local variables, assignments and conditions (lparser.c).
// The run of the code, its environment 'env' and first registers 'r', is arbitrary.

module CompileStat {
  import opened Common
  import opened LuaVM
  import opened JumpCode
  import opened CodeState
  import opened CodeGen
  import opened ExpMeaning
  import opened LuaK
  import opened CondCode
  import opened CompileExp

  // The code so far ended with o, that with the expression ends with o': the value is in
  // register reg, and the registers below n are as before, but for 'dst'.
  ghost predicate Evaluates(x: Expr, env: Env, o: Outcome, o': Outcome, reg: nat, n: nat, dst: nat) {
    if !o.Fall? then o' == o
    else match Eval(x, env.up, o.r)
      case None => o' == Fault
      case Some(v) =>
        && o'.Fall? && |o'.r| == |o.r| && At(o'.r, reg) == v
        && forall i :: 0 <= i < n && i != dst ==> At(o'.r, i) == At(o.r, i)
  }

  // A run through the code so far.
  function Start(s: Code, x: Expr, env: Env, r: Regs, lo: nat): Meaning {
    var o := Out(s, env, r);
    Meaning(env, r, lo, lo, o, ValueAt(x, env, o))
  }

  lemma StartBegins(fs: FuncState, x: Expr, env: Env, r: Regs)
    requires fs.Valid() && Scoped(x, fs.nactvar) && |r| >= MAXREGS
    ensures Begins(fs, x, Start(fs.View(), x, env, r, fs.freereg))
  {
    OutOk(fs.View(), env, r);
  }

  lemma LoadsValue(s: Code, s': Code, x: Expr, env: Env, r: Regs, reg: nat, lo: nat, dst: nat)
    requires Loads(s', reg, Start(s, x, env, r, lo).(dst := dst))
    ensures Evaluates(x, env, Out(s, env, r), Out(s', env, r), reg, lo, dst)
  {}

  // The next register gets the value of the expression, as in a local declaration.
  method ExpToNextReg(fs: FuncState, x: Expr, ghost env: Env, ghost r: Regs) returns (ok: bool, reg: nat)
    requires fs.Valid() && Scoped(x, fs.nactvar) && |r| >= MAXREGS
    modifies fs`code, fs`jpc, fs`jumps, fs`pend, fs`lasttarget, fs`k, fs`h, fs`freereg, fs`maxstacksize
    ensures !ok ==> fs.AtLimit()
    ensures ok ==> fs.Valid() && old(fs.k) <= fs.k && reg == old(fs.freereg) && fs.freereg == reg + 1
    ensures ok ==> Frame(old(fs.View()), fs.View(), {}, {})  // no jumps of the expression are left
    ensures ok && fs.k <= env.k ==> Evaluates(x, env, old(Out(fs.View(), env, r)), Out(fs.View(), env, r), reg, reg, reg)
  {
    hide WF, Means, Frame, IsList, NoDup, TwoLists, ExpShape, Out, Loads, Evaluates;
    ghost var s := fs.View();
    ghost var m := Start(s, x, env, r, fs.freereg);
    StartBegins(fs, x, env, r);
    var e;
    ghost var T, F;
    reg := 0;
    ok, e, T, F := Compile(fs, x, m);
    if !ok {
      return;
    }
    ghost var s1 := fs.View();
    TemplessTop(fs, e);
    ok, reg := Exp2NextReg(fs, e, T, F, m);
    if ok {
      FrameTrans(s, s1, fs.View(), {}, Own(e, T, F), {});
      if fs.k <= env.k { LoadsValue(s, fs.View(), x, env, r, reg, reg, reg); }
    }
  }

  lemma MeansTarget(s: Code, e: ExpDesc, T: seq<nat>, F: seq<nat>, m: Meaning, dst: nat)
    requires Means(s, e, T, F, m) && m.lo <= m.dst
    ensures Means(s, e, T, F, m.(dst := dst))
  {}

  // luaK_storevar: assignment to a local variable, which may occur in the expression.
  method StoreLocal(fs: FuncState, v: nat, x: Expr, ghost env: Env, ghost r: Regs) returns (ok: bool)
    requires fs.Valid() && Scoped(x, fs.nactvar) && v < fs.nactvar && |r| >= MAXREGS
    modifies fs`code, fs`jpc, fs`jumps, fs`pend, fs`lasttarget, fs`k, fs`h, fs`freereg, fs`maxstacksize
    ensures !ok ==> fs.AtLimit()
    ensures ok ==> fs.Valid() && old(fs.k) <= fs.k && fs.freereg == old(fs.freereg)
    ensures ok ==> Frame(old(fs.View()), fs.View(), {}, {})
    ensures ok && fs.k <= env.k ==> Evaluates(x, env, old(Out(fs.View(), env, r)), Out(fs.View(), env, r), v, fs.freereg, v)
  {
    hide WF, Means, Frame, IsList, NoDup, TwoLists, ExpShape, Out, Loads, Evaluates;
    ghost var s := fs.View();
    ghost var m := Start(s, x, env, r, fs.freereg);
    StartBegins(fs, x, env, r);
    var e;
    ghost var T, F;
    ok, e, T, F := Compile(fs, x, m);
    if !ok {
      return;
    }
    ghost var s1 := fs.View();
    TemplessTop(fs, e);
    RegisterLow(fs, e, T, F);
    FreeExp(fs, e);
    if fs.k <= env.k { MeansTarget(s1, e, T, F, m, v); }
    OwnPending(s1, fs.k, fs.nactvar, fs.freereg, e, T, F);
    var e1;
    ok, e1 := DischargeVars(fs, e, T, F, m.(dst := v));
    if !ok {
      return;
    }
    ghost var s2 := fs.View();
    OwnSame(e, e1, T, F);
    ok := Exp2Reg(fs, e1, T, F, v, m.(dst := v));
    if ok {
      FrameChainAgain(s1, s2, fs.View(), e, T, F, {});
      FrameTrans(s, s1, fs.View(), {}, Own(e, T, F), {});
      if fs.k <= env.k { LoadsValue(s, fs.View(), x, env, r, v, fs.freereg, v); }
    }
  }

  lemma RegisterLow(fs: FuncState, e: ExpDesc, T: seq<nat>, F: seq<nat>)
    requires Exp(fs, e, T, F)
    ensures e.k.VNonReloc? ==> e.info < fs.freereg
  {}

  // What a condition does: true values fall through, and others leave through a jump of xs.
  ghost predicate Decides(x: Expr, env: Env, o: Outcome, o': Outcome, xs: seq<nat>, n: nat) {
    if !o.Fall? then o' == o
    else match Eval(x, env.up, o.r)
      case None => o' == Fault
      case Some(v) =>
        && (if IsFalse(v) then o'.Exit? && o'.j in xs else o'.Fall?)
        && |o'.r| == |o.r| && forall i :: 0 <= i < n ==> At(o'.r, i) == At(o.r, i)
  }

  // Values that decide alike.
  predicate Alike(v: Option<Value>, w: Option<Value>) {
    match (v, w)
    case (Some(x), Some(y)) => IsFalse(x) == IsFalse(y)
    case _ => v == w
  }

  lemma CondsDecide(s: Code, s': Code, x: Expr, env: Env, r: Regs, xs: seq<nat>, lo: nat, v: Option<Value>)
    requires Conds(s', xs, true, Start(s, x, env, r, lo).(v := v)) && Alike(v, Start(s, x, env, r, lo).v)
    ensures Decides(x, env, Out(s, env, r), Out(s', env, r), xs, lo)
  {}

  // The value with false for nil, where the expression falls through.
  function FalseForNil(s: Code, e: ExpDesc, m: Meaning): Meaning {
    if e.k.VNil? && m.o0.Fall? && Out(s, m.env, m.r).Fall? then m.(v := Some(Bool(false))) else m
  }

  lemma FalseMeans(s: Code, e: ExpDesc, T: seq<nat>, F: seq<nat>, m: Meaning)
    requires Means(s, e, T, F, m) && e.k.VNil?
    ensures Means(s, e.(k := VFalse), T, F, FalseForNil(s, e, m)) && Alike(FalseForNil(s, e, m).v, m.v)
  {}

  // cond: the list of jumps that are taken when the condition is false.
  method Condition(fs: FuncState, x: Expr, ghost env: Env, ghost r: Regs) returns (ok: bool, list: int, ghost exits: seq<nat>)
    requires fs.Valid() && Scoped(x, fs.nactvar) && |r| >= MAXREGS
    modifies fs`code, fs`jpc, fs`jumps, fs`pend, fs`lasttarget, fs`k, fs`h, fs`freereg, fs`maxstacksize
    ensures !ok ==> fs.AtLimit()
    ensures ok ==> fs.Valid() && old(fs.k) <= fs.k && fs.freereg == old(fs.freereg) && IsList(fs.code, list, exits)
    ensures ok ==> Frame(old(fs.View()), fs.View(), {}, Members(exits))
    ensures ok && fs.k <= env.k ==> Decides(x, env, old(Out(fs.View(), env, r)), Out(fs.View(), env, r), exits, fs.freereg)
  {
    hide WF, Means, Frame, IsList, NoDup, TwoLists, Out, Conds, Decides;
    ghost var s := fs.View();
    ghost var m := Start(s, x, env, r, fs.freereg);
    StartBegins(fs, x, env, r);
    var e;
    ghost var T, F;
    list, exits := NO_JUMP, [];
    ok, e, T, F := Compile(fs, x, m);
    if !ok {
      return;
    }
    ghost var s1 := fs.View();
    TemplessTop(fs, e);
    ghost var own := Own(e, T, F);
    ghost var m1 := FalseForNil(s1, e, m);
    if e.k.VNil? {
      if fs.k <= env.k { FalseMeans(s1, e, T, F, m); }
      e := e.(k := VFalse);  // any false value will do
    }
    ok, list, exits := GoIfTrue(fs, e, T, F, m1);
    if ok {
      FrameTrans(s, s1, fs.View(), {}, own, Members(exits));
      if fs.k <= env.k { CondsDecide(s, fs.View(), x, env, r, exits, fs.freereg, m1.v); }
    }
  }
}
