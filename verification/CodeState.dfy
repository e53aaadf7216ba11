// A snapshot of code under construction, how it runs, and how that changes when
// instructions are added and jumps are put on hold or patched.

module CodeState {
  import opened Common
  import opened LuaVM
  import opened JumpCode

  // 'jumps' are the jumps to the next position (the list fs->jpc), 'pend' the other
  // pending ones, 'last' is fs->lasttarget. Runs start at 'base'.
  datatype Code = Code(code: seq<Instr>, jumps: seq<nat>, pend: set<nat>, base: nat, last: nat)

  function All(s: Code): set<nat> {
    s.pend + Members(s.jumps)
  }

  ghost predicate JumpIn(s: Code, j: nat) {
    s.base <= j < |s.code| && s.code[j].Jmp?
  }

  ghost predicate WF(s: Code) {
    && Shape(s.code, s.base, All(s), s.last) && Leader(s.code, s.base, |s.code|)
    && (s.base > 0 ==> s.base <= |s.code| && !IsTest(s.code[s.base - 1]))
    && NoDup(s.jumps) && s.pend !! Members(s.jumps) && (forall j :: j in All(s) ==> JumpIn(s, j))
    && (s.jumps != [] ==> s.last == |s.code|)
  }

  // A jump to the next position is as good as falling there.
  function Here(o: Outcome, xs: seq<nat>): Outcome {
    if o.Exit? && o.j in xs then Fall(o.r) else o
  }

  // How the code runs from 'base' on.
  function Out(s: Code, env: Env, r: Regs): Outcome {
    Here(Exec(s.code, env, All(s), s.base, r), s.jumps)
  }

  lemma OutOk(s: Code, env: Env, r: Regs)
    requires WF(s)
    ensures var o := Out(s, env, r);
      !o.Stuck? && (o.Fall? ==> |o.r| == |r|) && (o.Exit? ==> o.j in s.pend && |o.r| == |r|)
  {
    ExecOk(s.code, env, s.base, All(s), s.last, s.base, r);
  }

  // ------------------------------------------------------------------- dischargejpc

  function Discharged(s: Code): Code {
    s.(code := PatchAll(s.code, s.jumps, |s.code|, NO_REG, |s.code|), jumps := [])
  }

  lemma DischargeFrame(code: seq<Instr>, xs: seq<nat>, vtarget: int, reg: nat, dtarget: int, i: nat)
    requires i < |code|
    ensures i !in xs && i + 1 !in xs ==> PatchAll(code, xs, vtarget, reg, dtarget)[i] == code[i]
    ensures i !in xs && !code[i].TestSet? ==> PatchAll(code, xs, vtarget, reg, dtarget)[i] == code[i]
    ensures PatchAll(code, xs, vtarget, reg, dtarget)[i].Jmp? <== code[i].Jmp?
    ensures !code[i].Jmp? && i !in xs && IsTest(code[i]) ==> IsTest(PatchAll(code, xs, vtarget, reg, dtarget)[i])
    decreases |xs|
  {
    if xs != [] {
      assert forall x :: x in xs <==> x == xs[0] || x in xs[1..];
      DischargeFrame(PatchJump(code, xs[0], vtarget, reg, dtarget), xs[1..], vtarget, reg, dtarget, i);
    }
  }

  lemma DischargeOut(s: Code, env: Env, r: Regs)
    requires WF(s)
    ensures WF(Discharged(s)) && Out(Discharged(s), env, r) == Out(s, env, r)
  {
    var s' := Discharged(s);
    var n := |s.code|;
    forall x | x in s.jumps ensures MayPatch(s.code, s.base, All(s), s.last, x, n, n) {
      assert JumpIn(s, x);
    }
    ExecPatchAll(s.code, env, s.base, All(s), s.last, s.jumps, n, NO_REG, n, s.base, r);
    assert All(s) - Members(s.jumps) == s.pend == All(s');
    forall j | j in All(s') ensures JumpIn(s', j) {
      assert JumpIn(s, j);
      DischargeFrame(s.code, s.jumps, n, NO_REG, n, j);
    }
    if s.base > 0 { DischargeBelow(s); }
  }

  lemma DischargeBelow(s: Code)
    requires WF(s) && s.base > 0
    ensures s.base <= |s.code| && !IsTest(Discharged(s).code[s.base - 1])
  {
    forall j | j in s.jumps ensures j >= s.base { assert j in All(s) && JumpIn(s, j); }
    DischargeFrame(s.code, s.jumps, |s.code|, NO_REG, |s.code|, s.base - 1);
  }

  // ------------------------------------------------------------------------ emission

  // An instruction that only changes registers.
  predicate Plain(i: Instr) {
    i.Move? || i.LoadK? || (i.LoadBool? && i.c == 0) || i.LoadNil? || i.GetUpval? || i.Not?
  }

  function Effect(i: Instr, env: Env, r: Regs): (r': Regs)
    requires Plain(i)
    ensures |r'| == |r|
  {
    match i
    case Move(a, b) => Set(r, a, At(r, b))
    case LoadK(a, bx) => Set(r, a, At(env.k, bx))
    case LoadBool(a, b, _) => Set(r, a, Bool(b != 0))
    case LoadNil(a, b) => Nils(r, a, b)
    case GetUpval(a, b) => Set(r, a, At(env.up, b))
    case Not(a, b) => Set(r, a, Bool(IsFalse(At(r, b))))
  }

  function Emitted(s: Code, ins: seq<Instr>): Code {
    var d := Discharged(s);
    d.(code := d.code + ins)
  }

  // Running on with what follows.
  lemma EmitThen(s: Code, ins: seq<Instr>, P: set<nat>, env: Env, r: Regs)
    requires WF(s) && forall j :: j < |s.code| ==> (j in P <==> j in s.pend)
    ensures Exec(Emitted(s, ins).code, env, P, s.base, r)
         == Then(Out(s, env, r), Emitted(s, ins).code, env, P, |s.code|)
  {
    var d := Discharged(s);
    DischargeOut(s, env, r);
    ExecAppend(d.code, ins, env, s.base, All(d), P, s.last, s.base, r);
  }

  // At the end of the code, or at a plain instruction there.
  lemma EndRun(code: seq<Instr>, env: Env, P: set<nat>, r: Regs)
    ensures Exec(code, env, P, |code|, r) == Fall(r)
  {}

  lemma PlainRun(code: seq<Instr>, env: Env, P: set<nat>, n: nat, i: Instr, r: Regs)
    requires |code| == n + 1 && code[n] == i && Plain(i)
    ensures Exec(code, env, P, n, r) == Fall(Effect(i, env, r))
  {
    EndRun(code, env, P, Effect(i, env, r));
  }

  // luaK_code of a plain instruction.
  lemma EmitPlain(s: Code, i: Instr, env: Env, r: Regs)
    requires WF(s) && Plain(i)
    ensures var s' := Emitted(s, [i]);
      && WF(s')
      && Out(s', env, r) == (var o := Out(s, env, r); if o.Fall? then Fall(Effect(i, env, o.r)) else o)
  {
    hide Next, Shape, ShapeAt;
    var d, s' := Discharged(s), Emitted(s, [i]);
    DischargeOut(s, env, r);
    assert All(s') == s.pend;
    EmitThen(s, [i], s.pend, env, r);
    ShapeAppend(d.code, i, s.base, All(d), All(s'), s.last);
    forall j | j in All(s') ensures JumpIn(s', j) { assert j in All(d) && JumpIn(d, j); }
    var o := Out(s, env, r);
    if o.Fall? {
      PlainRun(s'.code, env, s.pend, |s.code|, i, o.r);
    }
  }

  // OP_LOADKX and its extra argument.
  lemma EmitLoadKX(s: Code, a: nat, k: nat, env: Env, r: Regs)
    requires WF(s)
    ensures var s' := Emitted(s, [LoadKX(a), ExtraArg(k)]);
      && WF(s')
      && Out(s', env, r) == (var o := Out(s, env, r); if o.Fall? then Fall(Set(o.r, a, At(env.k, k))) else o)
  {
    var ins := [LoadKX(a), ExtraArg(k)];
    var d, s' := Discharged(s), Emitted(s, ins);
    DischargeOut(s, env, r);
    assert All(s') == s.pend;
    EmitThen(s, ins, s.pend, env, r);
    ShapeAppend2(d.code, ins[0], ins[1], s.base, All(d), All(s'), s.last);
    forall j | j in All(s') ensures JumpIn(s', j) { assert j in All(d) && JumpIn(d, j); }
    var o := Out(s, env, r);
    if o.Fall? {
      assert s'.code[|s.code|] == ins[0] && s'.code[|s.code| + 1] == ins[1];
      assert Exec(s'.code, env, s.pend, |s.code| + 2, Set(o.r, a, At(env.k, k))) == Fall(Set(o.r, a, At(env.k, k)));
    }
  }

  // Whether a test performs its jump.
  function Taken(i: Instr, env: Env, r: Regs): Option<bool>
    requires IsTest(i)
  {
    match i
    case Cmp(op, a, b, c) =>
      (match Compare(op, RK(env, r, b), RK(env, r, c)) case None => None case Some(x) => Some(x == (a != 0)))
    case Test(a, c) => Some(if c != 0 then !IsFalse(At(r, a)) else IsFalse(At(r, a)))
    case TestSet(_, b, c) => Some(if c != 0 then !IsFalse(At(r, b)) else IsFalse(At(r, b)))
  }

  // condjump: a test and its jump, which is pending.
  function Tested(s: Code, i: Instr): Code {
    Emitted(s, [i, Jmp(NO_JUMP)]).(pend := s.pend + {|s.code| + 1})
  }

  function AfterTest(o: Outcome, i: Instr, env: Env, j: nat): Outcome
    requires IsTest(i)
  {
    if !o.Fall? then o
    else match Taken(i, env, o.r) case None => Fault case Some(t) => if t then Exit(j, o.r) else o
  }

  lemma TestRun(code: seq<Instr>, env: Env, P: set<nat>, n: nat, i: Instr, r: Regs)
    requires |code| == n + 2 && IsTest(i) && code[n] == i && code[n + 1].Jmp? && n + 1 in P
    ensures Exec(code, env, P, n, r) == AfterTest(Fall(r), i, env, n + 1)
  {
    assert Exec(code, env, P, n + 2, r) == Fall(r);
  }

  lemma EmitTest(s: Code, i: Instr, env: Env, r: Regs)
    requires WF(s) && IsTest(i)
    ensures WF(Tested(s, i)) && Out(Tested(s, i), env, r) == AfterTest(Out(s, env, r), i, env, |s.code| + 1)
  {
    hide Exec, Next, Shape;
    var ins := [i, Jmp(NO_JUMP)];
    var d, s' := Discharged(s), Tested(s, i);
    var P := s.pend + {|s.code| + 1};
    DischargeOut(s, env, r);
    forall j | j in All(d) ensures j < |s.code| { assert JumpIn(d, j); }
    EmitThen(s, ins, P, env, r);
    ShapeAppend2(d.code, ins[0], ins[1], s.base, All(d), P, s.last);
    assert All(s') == P;
    forall j | j in All(s') ensures JumpIn(s', j) {
      if j != |s.code| + 1 { assert j in All(d) && JumpIn(d, j); }
    }
    var o := Out(s, env, r);
    if o.Fall? {
      TestRun(s'.code, env, P, |s.code|, i, o.r);
    }
  }

  // ------------------------------------------------------------------ jumps on hold

  // luaK_patchtohere.
  function ToHere(s: Code, xs: seq<nat>): Code {
    s.(jumps := s.jumps + xs, pend := s.pend - Members(xs), last := |s.code|)
  }

  lemma ShapeLabel(code: seq<Instr>, base: nat, P: set<nat>, last: nat)
    requires Shape(code, base, P, last)
    ensures Shape(code, base, P, |code|)
  {
    forall pc | base <= pc < |code| && Leader(code, base, pc) ensures ShapeAt(code, base, P, |code|, pc) {
      assert ShapeAt(code, base, P, last, pc);
    }
  }

  lemma ToHereOut(s: Code, xs: seq<nat>, env: Env, r: Regs)
    requires WF(s) && NoDup(xs) && Members(xs) <= s.pend
    ensures WF(ToHere(s, xs)) && Out(ToHere(s, xs), env, r) == Here(Out(s, env, r), xs)
  {
    var s' := ToHere(s, xs);
    forall x | x in xs ensures x in s.pend && x !in s.jumps { assert x in Members(xs); }
    assert All(s') == All(s) by {
      forall j ensures j in All(s') <==> j in All(s) {}
    }
    ShapeLabel(s.code, s.base, All(s), s.last);
    forall j | j in All(s') ensures JumpIn(s', j) { assert JumpIn(s, j); }
    forall i, j | 0 <= i < j < |s'.jumps| ensures s'.jumps[i] != s'.jumps[j] {
      if i < |s.jumps| <= j { assert s.jumps[i] in s.jumps && xs[j - |s.jumps|] in xs; }
    }
  }

  // Pending jumps run the same whatever their offsets are.
  ghost predicate Relinked(s: Code, code': seq<Instr>) {
    && |code'| == |s.code|
    && forall i :: 0 <= i < |s.code| ==> code'[i] == s.code[i] || (i in All(s) && code'[i].Jmp?)
  }

  // A change of instructions that leaves leaders, steps and pending jumps alone.
  ghost predicate Unseen(s: Code, code': seq<Instr>) {
    && |code'| == |s.code|
    && (forall i :: 0 <= i < |s.code| ==> (TakesNext(code'[i]) <==> TakesNext(s.code[i])) && (s.code[i].Jmp? ==> code'[i].Jmp?))
    && (forall i :: 0 <= i < |s.code| ==> IsTest(code'[i]) == IsTest(s.code[i]))
    && (forall pc :: s.base <= pc < |s.code| && Leader(s.code, s.base, pc) ==> ShapeAt(code', s.base, All(s), s.last, pc))
    && forall env, x, q :: s.base <= x < |s.code| && Leader(s.code, s.base, x)
         ==> Next(code', env, All(s), x, q) == Next(s.code, env, All(s), x, q)
  }

  lemma UnseenOut(s: Code, code': seq<Instr>, env: Env, r: Regs)
    requires WF(s) && Unseen(s, code')
    ensures WF(s.(code := code')) && Out(s.(code := code'), env, r) == Out(s, env, r)
  {
    hide Exec, Next, ShapeAt;
    var s' := s.(code := code');
    assert forall x :: Leader(code', s.base, x) <==> Leader(s.code, s.base, x);
    assert Shape(code', s.base, All(s), s.last);
    ExecSame(s.code, code', env, s.base, All(s), s.last, s.base, r);
    assert All(s') == All(s);
    forall j | j in All(s') ensures JumpIn(s', j) { assert JumpIn(s, j); }
  }

  lemma RelinkStep(s: Code, code': seq<Instr>, x: nat, env: Env, q: Regs)
    requires WF(s) && Relinked(s, code') && s.base <= x < |s.code| && Leader(s.code, s.base, x)
    ensures Next(code', env, All(s), x, q) == Next(s.code, env, All(s), x, q)
  {
    assert ShapeAt(s.code, s.base, All(s), s.last, x);
    assert forall j :: j in All(s) ==> JumpIn(s, j);
  }

  lemma RelinkShape(s: Code, code': seq<Instr>, x: nat)
    requires WF(s) && Relinked(s, code') && s.base <= x < |s.code| && Leader(s.code, s.base, x)
    ensures ShapeAt(code', s.base, All(s), s.last, x)
  {
    assert ShapeAt(s.code, s.base, All(s), s.last, x);
    forall j | j in All(s) ensures JumpIn(s, j) {}
    assert forall t :: Leader(code', s.base, t) <==> Leader(s.code, s.base, t);
  }

  lemma RelinkOut(s: Code, code': seq<Instr>, env: Env, r: Regs)
    requires WF(s) && Relinked(s, code')
    ensures WF(s.(code := code')) && Out(s.(code := code'), env, r) == Out(s, env, r)
  {
    hide Exec, Next, ShapeAt;
    forall j | j in All(s) ensures JumpIn(s, j) {}
    forall pc | s.base <= pc < |s.code| && Leader(s.code, s.base, pc) ensures ShapeAt(code', s.base, All(s), s.last, pc) {
      RelinkShape(s, code', pc);
    }
    forall e, x, q | s.base <= x < |s.code| && Leader(s.code, s.base, x)
      ensures Next(code', e, All(s), x, q) == Next(s.code, e, All(s), x, q)
    {
      RelinkStep(s, code', x, e, q);
    }
    UnseenOut(s, code', env, r);
  }

  // A pending jump of a TESTSET does not write: it might as well be one of a TEST.
  lemma RemoveValueStep(s: Code, j: nat, x: nat, env: Env, q: Regs)
    requires WF(s) && j in s.pend && s.base <= x < |s.code| && Leader(s.code, s.base, x)
    ensures Next(PatchReg(s.code, j, NO_REG), env, All(s), x, q) == Next(s.code, env, All(s), x, q)
  {
    assert ShapeAt(s.code, s.base, All(s), s.last, x);
    assert j in All(s) && JumpIn(s, j);
  }

  lemma RemoveValueShape(s: Code, j: nat, x: nat)
    requires WF(s) && j in s.pend && s.base <= x < |s.code| && Leader(s.code, s.base, x)
    ensures ShapeAt(PatchReg(s.code, j, NO_REG), s.base, All(s), s.last, x)
  {
    assert ShapeAt(s.code, s.base, All(s), s.last, x);
    assert j in All(s) && JumpIn(s, j);
    assert forall t :: Leader(PatchReg(s.code, j, NO_REG), s.base, t) <==> Leader(s.code, s.base, t);
  }

  lemma RemoveValueOut(s: Code, j: nat, env: Env, r: Regs)
    requires WF(s) && j in s.pend
    ensures var s' := s.(code := PatchReg(s.code, j, NO_REG));
      WF(s') && Out(s', env, r) == Out(s, env, r)
  {
    hide Exec, Next, ShapeAt;
    var code' := PatchReg(s.code, j, NO_REG);
    assert j in All(s) && JumpIn(s, j);
    forall pc | s.base <= pc < |s.code| && Leader(s.code, s.base, pc) ensures ShapeAt(code', s.base, All(s), s.last, pc) {
      RemoveValueShape(s, j, pc);
    }
    forall e, x, q | s.base <= x < |s.code| && Leader(s.code, s.base, x)
      ensures Next(code', e, All(s), x, q) == Next(s.code, e, All(s), x, q)
    {
      RemoveValueStep(s, j, x, e, q);
    }
    UnseenOut(s, code', env, r);
  }

  // ------------------------------------------------------------ the last instructions

  // The state before the instructions from m on, which have no label among them.
  function Before(s: Code, m: nat): Code
    requires m <= |s.code|
  {
    s.(code := s.code[..m], pend := set j | j in s.pend && j < m)
  }

  ghost predicate CanCut(s: Code, m: nat) {
    WF(s) && s.jumps == [] && s.base <= m <= |s.code| && s.last <= m && Leader(s.code, s.base, m)
  }

  lemma CutOut(s: Code, m: nat, env: Env, r: Regs)
    requires CanCut(s, m)
    ensures WF(Before(s, m)) && Out(s, env, r) == Then(Out(Before(s, m), env, r), s.code, env, s.pend, m)
  {
    var b := Before(s, m);
    assert All(s) == s.pend && All(b) == b.pend;
    forall x: nat | x <= m ensures Leader(b.code, s.base, x) <==> Leader(s.code, s.base, x) {}
    forall pc | s.base <= pc < m && Leader(b.code, s.base, pc) ensures ShapeAt(b.code, s.base, b.pend, s.last, pc) {
      assert ShapeAt(s.code, s.base, s.pend, s.last, pc);
    }
    forall j | j in All(b) ensures JumpIn(b, j) { assert JumpIn(s, j); }
    ExecAppend(b.code, s.code[m..], env, s.base, b.pend, s.pend, s.last, s.base, r);
    assert b.code + s.code[m..] == s.code;
  }

  // The last instruction is plain: an instruction that can be relocated, or LOADNIL.
  ghost predicate EndsPlain(s: Code) {
    WF(s) && s.jumps == [] && s.base < |s.code| && s.last < |s.code| && Plain(s.code[|s.code| - 1])
  }

  lemma PlainLeader(s: Code)
    requires EndsPlain(s)
    ensures CanCut(s, |s.code| - 1)
  {
    var n := |s.code| - 1;
    if n > s.base && TakesNext(s.code[n - 1]) {
      PairsAlternate(s, n - 1);
    }
  }

  // An instruction that belongs with the one before it is a jump or an extra argument.
  lemma {:induction false} PairsAlternate(s: Code, pc: nat)
    requires WF(s) && s.base <= pc < |s.code|
    ensures Leader(s.code, s.base, pc) || s.code[pc].Jmp? || s.code[pc].ExtraArg?
    ensures TakesNext(s.code[pc]) ==> pc + 1 < |s.code| && (s.code[pc + 1].Jmp? || s.code[pc + 1].ExtraArg?)
    decreases pc
  {
    if !Leader(s.code, s.base, pc) {
      PairsAlternate(s, pc - 1);
    } else {
      assert ShapeAt(s.code, s.base, All(s), s.last, pc);
    }
  }

  lemma PlainOut(s: Code, env: Env, r: Regs)
    requires EndsPlain(s)
    ensures CanCut(s, |s.code| - 1) && WF(Before(s, |s.code| - 1))
    ensures Out(s, env, r) == (var o := Out(Before(s, |s.code| - 1), env, r);
                               if o.Fall? then Fall(Effect(s.code[|s.code| - 1], env, o.r)) else o)
  {
    var n := |s.code| - 1;
    PlainLeader(s);
    CutOut(s, n, env, r);
    var o := Out(Before(s, n), env, r);
    if o.Fall? {
      assert Exec(s.code, env, s.pend, n + 1, Effect(s.code[n], env, o.r)) == Fall(Effect(s.code[n], env, o.r));
    }
  }

  // Another plain instruction in its place.
  lemma ReplaceOut(s: Code, i: Instr, env: Env, r: Regs)
    requires EndsPlain(s) && Plain(i)
    ensures var s' := s.(code := s.code[|s.code| - 1 := i]);
      && EndsPlain(s') && Before(s', |s.code| - 1) == Before(s, |s.code| - 1)
      && Out(s', env, r) == (var o := Out(Before(s, |s.code| - 1), env, r);
                             if o.Fall? then Fall(Effect(i, env, o.r)) else o)
  {
    hide Exec, Next, Shape, ShapeAt;
    var n := |s.code| - 1;
    var b := Before(s, n);
    var s' := s.(code := s.code[n := i]);
    PlainOut(s, env, r);
    assert s'.code == b.code + [i] && s'.code[..n] == b.code;
    assert forall j :: j in s.pend ==> j < n by {
      forall j | j in s.pend ensures j < n { assert j in All(s) && JumpIn(s, j); }
    }
    assert b.pend == s.pend && All(b) == b.pend;
    ShapeAppend(b.code, i, s.base, b.pend, s.pend, s.last);
    assert All(s') == s.pend && All(b) == s.pend;
    forall j | j in All(s') ensures JumpIn(s', j) { assert JumpIn(b, j); }
    PlainOut(s', env, r);
  }

  // The last two instructions are a test and its jump.
  ghost predicate EndsTest(s: Code) {
    && WF(s) && s.jumps == [] && s.base + 2 <= |s.code| && s.last + 2 <= |s.code|
    && IsTest(s.code[|s.code| - 2]) && s.code[|s.code| - 1].Jmp? && |s.code| - 1 in s.pend
  }

  lemma TestOut(s: Code, env: Env, r: Regs)
    requires EndsTest(s)
    ensures CanCut(s, |s.code| - 2)
    ensures Out(s, env, r) == AfterTest(Out(Before(s, |s.code| - 2), env, r), s.code[|s.code| - 2], env, |s.code| - 1)
  {
    var n := |s.code| - 2;
    PairsAlternate(s, n);
    CutOut(s, n, env, r);
    var o := Out(Before(s, n), env, r);
    if o.Fall? {
      assert Exec(s.code, env, s.pend, n + 2, o.r) == Fall(o.r);
    }
  }

  // invertjump.
  function Inverted(i: Instr): Instr {
    match i
    case Cmp(op, a, b, c) => Cmp(op, if a != 0 then 0 else 1, b, c)
    case _ => i
  }

  lemma InvertOut(s: Code, env: Env, r: Regs)
    requires EndsTest(s) && s.code[|s.code| - 2].Cmp?
    ensures var n := |s.code| - 2;
      var s' := s.(code := s.code[n := Inverted(s.code[n])]);
      && EndsTest(s') && Before(s', n) == Before(s, n)
      && Out(s', env, r) == AfterTest(Out(Before(s, n), env, r), Inverted(s.code[n]), env, n + 1)
  {
    var n := |s.code| - 2;
    var s' := s.(code := s.code[n := Inverted(s.code[n])]);
    assert s'.code[..n] == s.code[..n];
    assert forall x :: Leader(s'.code, s.base, x) <==> Leader(s.code, s.base, x);
    forall pc | s.base <= pc < |s'.code| && Leader(s'.code, s.base, pc) ensures ShapeAt(s'.code, s.base, All(s), s.last, pc) {
      assert ShapeAt(s.code, s.base, All(s), s.last, pc);
    }
    assert All(s') == All(s);
    forall j | j in All(s') ensures JumpIn(s', j) { assert JumpIn(s, j); }
    TestOut(s', env, r);
  }

  // --------------------------------------------------------------- values of jumps

  // patchlistaux on a list of pending jumps.
  function Patched(s: Code, xs: seq<nat>, vtarget: int, reg: nat, dtarget: int): Code {
    s.(code := PatchAll(s.code, xs, vtarget, reg, dtarget), pend := s.pend - Members(xs))
  }

  ghost predicate Targets(s: Code, xs: seq<nat>, vtarget: int, dtarget: int) {
    && WF(s) && NoDup(xs) && Members(xs) <= s.pend
    && forall x :: x in xs ==> Lands(s.code, s.base, s.last, x, Landing(s.code, x, vtarget, dtarget))
  }

  lemma PatchedOut(s: Code, xs: seq<nat>, vtarget: int, reg: nat, dtarget: int, env: Env, r: Regs)
    requires Targets(s, xs, vtarget, dtarget)
    ensures var s' := Patched(s, xs, vtarget, reg, dtarget);
      && WF(s')
      && Exec(s'.code, env, All(s'), s.base, r)
         == AfterPatchAll(Exec(s.code, env, All(s), s.base, r), s.code, s'.code, env, All(s'), xs, vtarget, reg, dtarget)
  {
    var s' := Patched(s, xs, vtarget, reg, dtarget);
    forall x | x in xs ensures MayPatch(s.code, s.base, All(s), s.last, x, vtarget, dtarget) {
      assert x in Members(xs) && x in All(s) && JumpIn(s, x);
    }
    ExecPatchAll(s.code, env, s.base, All(s), s.last, xs, vtarget, reg, dtarget, s.base, r);
    assert All(s) - Members(xs) == All(s') by {
      forall x | x in s.jumps ensures x !in Members(xs) { assert x in Members(s.jumps); }
    }
    forall j | j in All(s') ensures JumpIn(s', j) {
      assert JumpIn(s, j);
      DischargeFrame(s.code, xs, vtarget, reg, dtarget, j);
    }
    if s.base > 0 {
      forall j | j in xs ensures j >= s.base { assert j in Members(xs) && j in All(s) && JumpIn(s, j); }
      DischargeFrame(s.code, xs, vtarget, reg, dtarget, s.base - 1);
    }
  }

  // The value that the jump at j leaves in 'reg': the tested one, or a boolean.
  function Loaded(code: seq<Instr>, j: nat, reg: nat, b: bool, r: Regs): Regs {
    if HasValue(code, j) then Carried(code, j, reg, r) else Set(r, reg, Bool(b))
  }

  function AfterLoads(o: Outcome, s: Code, T: seq<nat>, F: seq<nat>, reg: nat): Outcome {
    if o.Exit? && o.j in F then Fall(Loaded(s.code, o.j, reg, false, o.r))
    else if o.Exit? && o.j in T then Fall(Loaded(s.code, o.j, reg, true, o.r))
    else o
  }

  ghost predicate TwoLists(s: Code, T: seq<nat>, F: seq<nat>) {
    NoDup(T) && NoDup(F) && Members(T) <= s.pend && Members(F) <= s.pend && Members(T) !! Members(F)
  }

  // All jumps have values: they go to the end with them.
  function LoadedAll(s: Code, T: seq<nat>, F: seq<nat>, reg: nat): Code {
    var s1 := Patched(s.(last := |s.code|), F, |s.code|, reg, NO_JUMP);
    Patched(s1, T, |s.code|, reg, NO_JUMP)
  }

  // Patching one list leaves the other alone.
  lemma PatchApart(code: seq<Instr>, xs: seq<nat>, vtarget: int, reg: nat, dtarget: int, y: nat)
    requires y !in xs && y < |code| && code[y].Jmp? && forall x :: x in xs ==> x < |code| && code[x].Jmp?
    ensures var code' := PatchAll(code, xs, vtarget, reg, dtarget);
      && code'[y] == code[y] && (HasValue(code', y) <==> HasValue(code, y))
      && (1 <= y && IsTest(code[y - 1]) ==> code'[y - 1] == code[y - 1])
  {
    DischargeFrame(code, xs, vtarget, reg, dtarget, y);
    if 1 <= y {
      DischargeFrame(code, xs, vtarget, reg, dtarget, y - 1);
    }
  }

  lemma LabelWF(s: Code)
    requires WF(s)
    ensures WF(s.(last := |s.code|))
  {
    ShapeLabel(s.code, s.base, All(s), s.last);
    assert All(s.(last := |s.code|)) == All(s);
    forall j | j in All(s) ensures JumpIn(s.(last := |s.code|), j) { assert JumpIn(s, j); }
  }

  lemma ListJumps(s: Code, xs: seq<nat>)
    requires WF(s) && Members(xs) <= s.pend
    ensures forall x :: x in xs ==> s.base <= x < |s.code| && s.code[x].Jmp? && x !in s.jumps
  {
    forall x | x in xs ensures s.base <= x < |s.code| && s.code[x].Jmp? && x !in s.jumps {
      assert x in Members(xs) && x in All(s) && JumpIn(s, x);
      assert x in s.jumps ==> x in Members(s.jumps);
    }
  }

  lemma LoadedAllOut(s: Code, T: seq<nat>, F: seq<nat>, reg: nat, env: Env, r: Regs)
    requires WF(s) && TwoLists(s, T, F) && reg != NO_REG
    requires forall x :: x in T || x in F ==> HasValue(s.code, x)
    ensures WF(LoadedAll(s, T, F, reg)) && Out(LoadedAll(s, T, F, reg), env, r) == AfterLoads(Out(s, env, r), s, T, F, reg)
  {
    var n := |s.code|;
    var s0 := s.(last := n);
    var s1 := Patched(s0, F, n, reg, NO_JUMP);
    LabelWF(s);
    ListJumps(s, T);
    ListJumps(s, F);
    PatchedOut(s0, F, n, reg, NO_JUMP, env, r);
    forall x | x in T ensures HasValue(s1.code, x) && s1.code[x - 1] == s.code[x - 1] && x !in F {
      assert x in Members(T);
      PatchApart(s.code, F, n, reg, NO_JUMP, x);
    }
    assert Members(T) <= s1.pend;
    PatchedOut(s1, T, n, reg, NO_JUMP, env, r);
    assert All(s0) == All(s);
  }

  // Some jump has no value: the code ends with two instructions that load booleans. A
  // value already in the register jumps over them ('skip').
  // (The offset of a pending jump, 'off', does not matter.)
  function Skipping(s: Code, skip: bool, off: int): Code {
    if skip then s.(code := s.code + [Jmp(off)], pend := s.pend + Members([|s.code|] + s.jumps), jumps := []) else s
  }

  function Skips(s: Code, skip: bool): seq<nat> {
    if skip then [|s.code|] + s.jumps else []
  }

  function WithBools(s: Code, skip: bool, off: int, reg: nat): Code {
    var q := Skipping(s, skip, off);
    q.(code := q.code + [LoadBool(reg, 0, 1), LoadBool(reg, 1, 0)], last := |q.code| + 2)
  }

  function LoadedBools(s: Code, skip: bool, off: int, T: seq<nat>, F: seq<nat>, reg: nat): Code {
    var s0 := WithBools(s, skip, off, reg);
    var end := |s0.code|;
    var s1 := Patched(s0, F, end, reg, end - 2);
    var s2 := Patched(s1, T, end, reg, end - 1);
    s2.(jumps := Skips(s, skip), pend := s2.pend - Members(Skips(s, skip)))
  }

  lemma SkippingOut(s: Code, skip: bool, off: int, env: Env, r: Regs)
    requires WF(s) && (!skip ==> s.jumps == [])
    ensures var q := Skipping(s, skip, off);
      && WF(q) && q.jumps == []
      && Exec(q.code, env, All(q), q.base, r)
         == (var o := Exec(s.code, env, All(s), s.base, r); if skip && o.Fall? then Exit(|s.code|, o.r) else o)
  {
    if skip {
      var q := Skipping(s, skip, off);
      var n := |s.code|;
      assert All(q) == All(s) + {n} by {
        assert Members([n] + s.jumps) == {n} + Members(s.jumps);
      }
      forall j | j in All(s) ensures j < n { assert JumpIn(s, j); }
      ShapeAppend(s.code, Jmp(off), s.base, All(s), All(q), s.last);
      ExecAppend(s.code, [Jmp(off)], env, s.base, All(s), All(q), s.last, s.base, r);
      forall j | j in All(q) ensures JumpIn(q, j) { if j != n { assert JumpIn(s, j); } }
      assert q.code[n] == Jmp(off);
    }
  }

  lemma WithBoolsOut(s: Code, skip: bool, off: int, reg: nat, env: Env, r: Regs)
    requires WF(s) && (!skip ==> s.jumps == [])
    ensures var q := WithBools(s, skip, off, reg);
      && WF(q) && q.jumps == [] && Leader(q.code, q.base, |q.code| - 1) && Leader(q.code, q.base, |q.code| - 2)
      && Exec(q.code, env, All(q), q.base, r)
         == (var o := Exec(s.code, env, All(s), s.base, r);
             if !o.Fall? then o else if skip then Exit(|s.code|, o.r) else Fall(Set(o.r, reg, Bool(false))))
  {
    hide Exec, Next, Shape, ShapeAt;
    SkippingOut(s, skip, off, env, r);
    var p, q := Skipping(s, skip, off), WithBools(s, skip, off, reg);
    var m := |p.code|;
    assert All(q) == All(p) == p.pend;
    BoolsShape(p, reg);
    ExecAppend(p.code, [LoadBool(reg, 0, 1), LoadBool(reg, 1, 0)], env, p.base, All(p), All(p), p.last, p.base, r);
    forall j | j in All(q) ensures JumpIn(q, j) { assert JumpIn(p, j); }
    var o := Exec(p.code, env, All(p), p.base, r);
    if o.Fall? { BoolsRun(q.code, env, All(q), reg, o.r); }
  }

  lemma BoolsShape(p: Code, reg: nat)
    requires WF(p)
    ensures Shape(p.code + [LoadBool(reg, 0, 1), LoadBool(reg, 1, 0)], p.base, All(p), |p.code| + 2)
  {
    var code' := p.code + [LoadBool(reg, 0, 1), LoadBool(reg, 1, 0)];
    forall pc | p.base <= pc < |code'| && Leader(code', p.base, pc) ensures ShapeAt(code', p.base, All(p), |p.code| + 2, pc) {
      if pc < |p.code| { assert ShapeAt(p.code, p.base, All(p), p.last, pc); }
    }
  }

  // The two instructions, run from the first or the second.
  lemma BoolsRun(code: seq<Instr>, env: Env, P: set<nat>, reg: nat, r: Regs)
    requires |code| >= 2 && code[|code| - 2] == LoadBool(reg, 0, 1) && code[|code| - 1] == LoadBool(reg, 1, 0)
    ensures Exec(code, env, P, |code| - 2, r) == Fall(Set(r, reg, Bool(false)))
    ensures Exec(code, env, P, |code| - 1, r) == Fall(Set(r, reg, Bool(true)))
  {}

  // The value that is already there jumps to the end; on a comparison there is none.
  function AfterBools(o: Outcome, s: Code, skip: bool, T: seq<nat>, F: seq<nat>, reg: nat): Outcome {
    if o.Fall? then Fall(if skip then o.r else Set(o.r, reg, Bool(false))) else AfterLoads(o, s, T, F, reg)
  }

  lemma BoolsTargets(s: Code, skip: bool, off: int, T: seq<nat>, F: seq<nat>, reg: nat)
    requires WF(s) && TwoLists(s, T, F) && reg != NO_REG && (!skip ==> s.jumps == [])
    ensures var s0 := WithBools(s, skip, off, reg);
      var end := |s0.code|;
      var s1 := Patched(s0, F, end, reg, end - 2);
      && Targets(s0, F, end, end - 2) && Targets(s1, T, end, end - 1)
      && (forall x :: x in T ==> (HasValue(s1.code, x) <==> HasValue(s.code, x)) && (HasValue(s.code, x) ==> s1.code[x - 1] == s.code[x - 1]))
  {
    hide Exec, Next, Shape, ShapeAt;
    var s0 := WithBools(s, skip, off, reg);
    var end := |s0.code|;
    var s1 := Patched(s0, F, end, reg, end - 2);
    var env, r: Regs := Env([], []), [];
    WithBoolsOut(s, skip, off, reg, env, r);
    ListJumps(s, T);
    ListJumps(s, F);
    PatchedOut(s0, F, end, reg, end - 2, env, r);
    forall x | x in T
      ensures x !in F && x in s1.pend && Lands(s1.code, s1.base, s1.last, x, Landing(s1.code, x, end, end - 1))
      ensures (HasValue(s1.code, x) <==> HasValue(s.code, x)) && (HasValue(s.code, x) ==> s1.code[x - 1] == s.code[x - 1])
    {
      assert x in Members(T);
      PatchApart(s0.code, F, end, reg, end - 2, x);
      BoolsKept(s0.code, F, end, reg, end - 2);
    }
  }

  lemma BoolsKept(code: seq<Instr>, xs: seq<nat>, vtarget: int, reg: nat, dtarget: int)
    requires |code| >= 2 && (forall x :: x in xs ==> x + 2 < |code|) && code[|code| - 2].LoadBool? && code[|code| - 1].LoadBool?
    ensures var code' := PatchAll(code, xs, vtarget, reg, dtarget);
      code'[|code| - 2] == code[|code| - 2] && code'[|code| - 1] == code[|code| - 1]
  {
    DischargeFrame(code, xs, vtarget, reg, dtarget, |code| - 2);
    DischargeFrame(code, xs, vtarget, reg, dtarget, |code| - 1);
  }

  // Both lists patched, before the jumps over the booleans come here.
  function BothPatched(s: Code, skip: bool, off: int, T: seq<nat>, F: seq<nat>, reg: nat): Code {
    var s0 := WithBools(s, skip, off, reg);
    var s1 := Patched(s0, F, |s0.code|, reg, |s0.code| - 2);
    Patched(s1, T, |s0.code|, reg, |s0.code| - 1)
  }

  // A jump of the list goes to the end with its value, or to the given load.
  lemma PatchedLoads(s: Code, xs: seq<nat>, reg: nat, b: bool, env: Env, r: Regs)
    requires |s.code| >= 2 && s.code[|s.code| - 2] == LoadBool(reg, 0, 1) && s.code[|s.code| - 1] == LoadBool(reg, 1, 0)
    requires (forall x :: x in xs ==> x + 2 < |s.code|) && reg != NO_REG && s.jumps == []
    requires Targets(s, xs, |s.code|, if b then |s.code| - 1 else |s.code| - 2)
    ensures var s' := Patched(s, xs, |s.code|, reg, if b then |s.code| - 1 else |s.code| - 2);
      && WF(s') && s'.code[|s.code| - 2..] == s.code[|s.code| - 2..]
      && Exec(s'.code, env, All(s'), s'.base, r)
         == (var o := Exec(s.code, env, All(s), s.base, r);
             if o.Exit? && o.j in xs then Fall(Loaded(s.code, o.j, reg, b, o.r)) else o)
  {
    hide Exec, Next, Shape, ShapeAt;
    var dtarget := if b then |s.code| - 1 else |s.code| - 2;
    var s' := Patched(s, xs, |s.code|, reg, dtarget);
    PatchedOut(s, xs, |s.code|, reg, dtarget, env, r);
    BoolsKept(s.code, xs, |s.code|, reg, dtarget);
    var o := Exec(s.code, env, All(s), s.base, r);
    if o.Exit? && o.j in xs {
      BoolsRun(s'.code, env, All(s'), reg, o.r);
      EndRun(s'.code, env, All(s'), Carried(s.code, o.j, reg, o.r));
    }
  }

  lemma BothPatchedOut(s: Code, skip: bool, off: int, T: seq<nat>, F: seq<nat>, reg: nat, env: Env, r: Regs)
    requires WF(s) && TwoLists(s, T, F) && reg != NO_REG && (!skip ==> s.jumps == [])
    ensures var s2 := BothPatched(s, skip, off, T, F, reg);
      && WF(s2) && s2.jumps == []
      && Exec(s2.code, env, All(s2), s2.base, r)
         == (var o := Exec(s.code, env, All(s), s.base, r);
             if !o.Fall? then AfterLoads(o, s, T, F, reg)
             else if skip then Exit(|s.code|, o.r) else Fall(Set(o.r, reg, Bool(false))))
  {
    hide WF, Targets, PatchAll, Exec, Shape;
    ListJumps(s, T);
    ListJumps(s, F);
    WithBoolsOut(s, skip, off, reg, env, r);
    BoolsTargets(s, skip, off, T, F, reg);
    var s0 := WithBools(s, skip, off, reg);
    PatchedLoads(s0, F, reg, false, env, r);
    PatchedLoads(Patched(s0, F, |s0.code|, reg, |s0.code| - 2), T, reg, true, env, r);
  }

  lemma SkipsPending(s: Code, skip: bool, off: int, T: seq<nat>, F: seq<nat>, reg: nat)
    requires WF(s) && TwoLists(s, T, F) && reg != NO_REG && (!skip ==> s.jumps == [])
    ensures var s2 := BothPatched(s, skip, off, T, F, reg);
      Members(Skips(s, skip)) <= s2.pend && NoDup(Skips(s, skip)) && |s2.code| == s2.last
  {
    ListJumps(s, T);
    ListJumps(s, F);
    forall x | x in Skips(s, skip) ensures x in BothPatched(s, skip, off, T, F, reg).pend {
      if x != |s.code| { assert x in Members(s.jumps); }
    }
    forall j | j in s.jumps ensures j < |s.code| { assert j in Members(s.jumps) && JumpIn(s, j); }
    if skip {
      assert forall i :: 0 <= i < |s.jumps| ==> s.jumps[i] in s.jumps;
    }
  }

  lemma LoadedBoolsOut(s: Code, skip: bool, off: int, T: seq<nat>, F: seq<nat>, reg: nat, env: Env, r: Regs)
    requires WF(s) && TwoLists(s, T, F) && reg != NO_REG && (!skip ==> s.jumps == [])
    ensures WF(LoadedBools(s, skip, off, T, F, reg))
    ensures Out(LoadedBools(s, skip, off, T, F, reg), env, r) == AfterBools(Out(s, env, r), s, skip, T, F, reg)
  {
    var s2 := BothPatched(s, skip, off, T, F, reg);
    BothPatchedOut(s, skip, off, T, F, reg, env, r);
    SkipsPending(s, skip, off, T, F, reg);
    ToHereOut(s2, Skips(s, skip), env, r);
    assert s2.jumps + Skips(s, skip) == Skips(s, skip);
    assert LoadedBools(s, skip, off, T, F, reg) == ToHere(s2, Skips(s, skip));
    ListJumps(s, T);
    ListJumps(s, F);
    ExecOk(s.code, env, s.base, All(s), s.last, s.base, r);
    var o := Exec(s.code, env, All(s), s.base, r);
    if o.Exit? { assert JumpIn(s, o.j); }
  }
}
