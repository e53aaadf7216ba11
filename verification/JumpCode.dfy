// Code with pending jumps: its shape, and what appending instructions and patching
// jumps do to the way it runs.

module JumpCode {
  import opened Common
  import opened LuaVM

  const NO_JUMP := -1
  const NO_REG: nat := 255

  // A test belongs together with the jump after it.
  predicate IsTest(i: Instr) {
    i.Cmp? || i.Test? || i.TestSet?
  }

  predicate TakesNext(i: Instr) {
    IsTest(i) || i.LoadKX?
  }

  // Where execution may be, from 'base' on: not in the middle of such a pair.
  predicate Leader(code: seq<Instr>, base: nat, pc: nat) {
    base <= pc <= |code| && (pc > base ==> !TakesNext(code[pc - 1]))
  }

  // A jump from pc may go to t. 'last' is the last position that jumps may go to.
  predicate Lands(code: seq<Instr>, base: nat, last: nat, pc: nat, t: int) {
    pc < t <= last && t <= |code| && Leader(code, base, t)
  }

  predicate JumpOk(code: seq<Instr>, base: nat, P: set<nat>, last: nat, j: nat) {
    j < |code| && code[j].Jmp? && (j in P || Lands(code, base, last, j, j + 1 + code[j].sbx))
  }

  predicate ShapeAt(code: seq<Instr>, base: nat, P: set<nat>, last: nat, pc: nat)
    requires pc < |code|
  {
    match code[pc]
    case Jmp(_) => JumpOk(code, base, P, last, pc)
    case LoadBool(_, _, c) => c != 0 ==> Lands(code, base, last, pc, pc + 2)
    case LoadKX(_) => pc + 1 < |code| && code[pc + 1].ExtraArg?
    case ExtraArg(_) => false
    case Cmp(_, _, _, _) => JumpOk(code, base, P, last, pc + 1)
    case Test(_, _) => JumpOk(code, base, P, last, pc + 1)
    case TestSet(_, _, _) => JumpOk(code, base, P, last, pc + 1)
    case _ => true
  }

  // Execution that starts at a leader stays on leaders and does not get stuck.
  ghost predicate Shape(code: seq<Instr>, base: nat, P: set<nat>, last: nat) {
    && base <= |code| && last <= |code|
    && forall pc :: base <= pc < |code| && Leader(code, base, pc) ==> ShapeAt(code, base, P, last, pc)
  }

  lemma NextOk(code: seq<Instr>, env: Env, base: nat, P: set<nat>, last: nat, pc: nat, r: Regs)
    requires Shape(code, base, P, last) && Leader(code, base, pc) && pc < |code|
    ensures match Next(code, env, P, pc, r)
            case Go(pc', r') => pc' > pc && Leader(code, base, pc') && |r'| == |r|
            case Done(o) => o == Fault || (o.Exit? && o.j in P && pc <= o.j < |code| && |o.r| == |r|)
  {
    assert ShapeAt(code, base, P, last, pc);
  }

  lemma {:induction false} ExecOk(code: seq<Instr>, env: Env, base: nat, P: set<nat>, last: nat, pc: nat, r: Regs)
    requires Shape(code, base, P, last) && Leader(code, base, pc)
    ensures var o := Exec(code, env, P, pc, r);
      !o.Stuck? && (o.Fall? ==> |o.r| == |r|) && (o.Exit? ==> o.j in P && pc <= o.j < |code| && |o.r| == |r|)
    decreases |code| - pc
  {
    if pc < |code| {
      NextOk(code, env, base, P, last, pc, r);
      var n := Next(code, env, P, pc, r);
      if n.Go? { ExecOk(code, env, base, P, last, n.pc, n.r); }
    }
  }

  // --------------------------------------------------------------------- appending

  // Running on after the end of the code.
  function Then(o: Outcome, code: seq<Instr>, env: Env, P: set<nat>, pc: nat): Outcome {
    if o.Fall? then Exec(code, env, P, pc, o.r) else o
  }

  lemma {:induction false} ExecAppend(code: seq<Instr>, ext: seq<Instr>, env: Env, base: nat, P: set<nat>, P': set<nat>, last: nat, pc: nat, r: Regs)
    requires Shape(code, base, P, last) && Leader(code, base, pc)
    requires forall j :: j < |code| ==> (j in P <==> j in P')
    ensures Exec(code + ext, env, P', pc, r) == Then(Exec(code, env, P, pc, r), code + ext, env, P', |code|)
    decreases |code| - pc
  {
    if pc < |code| {
      NextOk(code, env, base, P, last, pc, r);
      assert ShapeAt(code, base, P, last, pc);
      var n := Next(code, env, P, pc, r);
      assert Next(code + ext, env, P', pc, r) == n;
      if n.Go? { ExecAppend(code, ext, env, base, P, P', last, n.pc, n.r); }
    }
  }

  lemma ShapeAppend(code: seq<Instr>, i: Instr, base: nat, P: set<nat>, P': set<nat>, last: nat)
    requires Shape(code, base, P, last) && Leader(code, base, |code|)
    requires forall j :: j < |code| ==> (j in P <==> j in P')
    requires !TakesNext(i) && !i.ExtraArg? && (i.Jmp? ==> |code| in P') && (i.LoadBool? ==> i.c == 0)
    ensures Shape(code + [i], base, P', last)
  {
    forall pc | base <= pc < |code + [i]| && Leader(code + [i], base, pc)
      ensures ShapeAt(code + [i], base, P', last, pc)
    {
      if pc < |code| { assert ShapeAt(code, base, P, last, pc); }
    }
  }

  // Two instructions that belong together.
  lemma ShapeAppend2(code: seq<Instr>, i: Instr, j: Instr, base: nat, P: set<nat>, P': set<nat>, last: nat)
    requires Shape(code, base, P, last) && Leader(code, base, |code|)
    requires forall x :: x < |code| ==> (x in P <==> x in P')
    requires (IsTest(i) && j.Jmp? && |code| + 1 in P') || (i.LoadKX? && j.ExtraArg?)
    ensures Shape(code + [i, j], base, P', last)
  {
    var code' := code + [i, j];
    forall pc | base <= pc < |code'| && Leader(code', base, pc)
      ensures ShapeAt(code', base, P', last, pc)
    {
      if pc < |code| { assert ShapeAt(code, base, P, last, pc); }
    }
  }

  // ------------------------------------------------------------ changes that do not show

  // Code that takes the same steps runs the same.
  lemma {:induction false} ExecSame(code: seq<Instr>, code': seq<Instr>, env: Env, base: nat, P: set<nat>, last: nat, pc: nat, r: Regs)
    requires Shape(code, base, P, last) && Leader(code, base, pc) && |code'| == |code|
    requires forall x, q :: base <= x < |code| && Leader(code, base, x) ==> Next(code', env, P, x, q) == Next(code, env, P, x, q)
    ensures Exec(code', env, P, pc, r) == Exec(code, env, P, pc, r)
    decreases |code| - pc
  {
    if pc < |code| {
      NextOk(code, env, base, P, last, pc, r);
      var n := Next(code, env, P, pc, r);
      assert Next(code', env, P, pc, r) == n;
      if n.Go? { ExecSame(code, code', env, base, P, last, n.pc, n.r); }
    }
  }

  // ----------------------------------------------------------------------- patching

  // A jump of a TESTSET may carry the value that is tested.
  predicate HasValue(code: seq<Instr>, j: nat) {
    1 <= j <= |code| && code[j - 1].TestSet?
  }

  // patchtestreg: where the value goes; without a register, nowhere.
  function PatchReg(code: seq<Instr>, j: nat, reg: nat): (code': seq<Instr>)
    ensures |code'| == |code|
  {
    if HasValue(code, j) then
      var i := code[j - 1];
      code[j - 1 := if reg != NO_REG && reg != i.b then TestSet(reg, i.b, i.c) else Test(i.b, i.c)]
    else code
  }

  function Landing(code: seq<Instr>, j: nat, vtarget: int, dtarget: int): int {
    if HasValue(code, j) then vtarget else dtarget
  }

  function PatchJump(code: seq<Instr>, j: nat, vtarget: int, reg: nat, dtarget: int): (code': seq<Instr>)
    ensures |code'| == |code|
  {
    if j < |code| then PatchReg(code, j, reg)[j := Jmp(Landing(code, j, vtarget, dtarget) - (j + 1))] else code
  }

  // The registers with the value that the jump carries.
  function Carried(code: seq<Instr>, j: nat, reg: nat, r: Regs): (r': Regs)
    ensures |r'| == |r|
  {
    if HasValue(code, j) && reg != NO_REG then Set(r, reg, At(r, code[j - 1].b)) else r
  }

  function AfterPatch(o: Outcome, code: seq<Instr>, code': seq<Instr>, env: Env, P': set<nat>, j: nat, vtarget: int, reg: nat, dtarget: int): Outcome {
    if o.Exit? && o.j == j && Landing(code, j, vtarget, dtarget) >= 0
    then Exec(code', env, P', Landing(code, j, vtarget, dtarget), Carried(code, j, reg, o.r)) else o
  }

  ghost predicate MayPatch(code: seq<Instr>, base: nat, P: set<nat>, last: nat, j: nat, vtarget: int, dtarget: int) {
    && Shape(code, base, P, last) && j in P && base <= j < |code| && code[j].Jmp?
    && (j > base || !HasValue(code, j))
    && Lands(code, base, last, j, Landing(code, j, vtarget, dtarget))
  }

  lemma PatchLeader(code: seq<Instr>, base: nat, P: set<nat>, last: nat, j: nat, vtarget: int, reg: nat, dtarget: int, pc: nat)
    requires MayPatch(code, base, P, last, j, vtarget, dtarget)
    ensures Leader(PatchJump(code, j, vtarget, reg, dtarget), base, pc) <==> Leader(code, base, pc)
  {}

  lemma PatchShape(code: seq<Instr>, base: nat, P: set<nat>, last: nat, j: nat, vtarget: int, reg: nat, dtarget: int)
    requires MayPatch(code, base, P, last, j, vtarget, dtarget)
    ensures Shape(PatchJump(code, j, vtarget, reg, dtarget), base, P - {j}, last)
  {
    var code' := PatchJump(code, j, vtarget, reg, dtarget);
    forall pc | base <= pc < |code'| && Leader(code', base, pc)
      ensures ShapeAt(code', base, P - {j}, last, pc)
    {
      PatchLeader(code, base, P, last, j, vtarget, reg, dtarget, pc);
      assert ShapeAt(code, base, P, last, pc);
      forall t | 0 <= t <= |code| ensures Leader(code', base, t) <==> Leader(code, base, t) {
        PatchLeader(code, base, P, last, j, vtarget, reg, dtarget, t);
      }
    }
  }

  // A step after patching: the patched jump is taken where it was left pending.
  ghost predicate StepPatched(code: seq<Instr>, env: Env, P: set<nat>, j: nat, vtarget: int, reg: nat, dtarget: int, pc: nat, r: Regs)
    requires pc < |code|
  {
    var n := Next(code, env, P, pc, r);
    var n' := Next(PatchJump(code, j, vtarget, reg, dtarget), env, P - {j}, pc, r);
    if n.Done? && n.o.Exit? && n.o.j == j
    then Landing(code, j, vtarget, dtarget) >= 0 && n' == Go(Landing(code, j, vtarget, dtarget), Carried(code, j, reg, n.o.r))
    else n' == n
  }

  // The patched jump itself, reached by the instruction at pc (perhaps itself).
  lemma PatchedJump(code: seq<Instr>, P: set<nat>, base: nat, last: nat, j: nat, vtarget: int, reg: nat, dtarget: int, r: Regs, r': Regs)
    requires MayPatch(code, base, P, last, j, vtarget, dtarget)
    ensures Jump(code, P, j, r) == Done(Exit(j, r))
    ensures Jump(PatchJump(code, j, vtarget, reg, dtarget), P - {j}, j, r') == Go(Landing(code, j, vtarget, dtarget), r')
  {}

  lemma PatchStepHere(code: seq<Instr>, env: Env, base: nat, P: set<nat>, last: nat, j: nat, vtarget: int, reg: nat, dtarget: int, pc: nat, r: Regs)
    requires MayPatch(code, base, P, last, j, vtarget, dtarget) && Leader(code, base, pc) && pc < |code|
    requires pc == j || (pc + 1 == j && IsTest(code[pc]))
    ensures StepPatched(code, env, P, j, vtarget, reg, dtarget, pc, r)
  {
    hide Jump;
    var i := code[pc];
    if i.TestSet? {
      assert Set(r, i.b, At(r, i.b)) == r;
      PatchedJump(code, P, base, last, j, vtarget, reg, dtarget, r, Carried(code, j, reg, r));
    } else {
      PatchedJump(code, P, base, last, j, vtarget, reg, dtarget, r, r);
    }
  }

  lemma PatchStepAway(code: seq<Instr>, env: Env, base: nat, P: set<nat>, last: nat, j: nat, vtarget: int, reg: nat, dtarget: int, pc: nat, r: Regs)
    requires MayPatch(code, base, P, last, j, vtarget, dtarget) && Leader(code, base, pc) && pc < |code|
    requires pc != j && !(pc + 1 == j && IsTest(code[pc]))
    ensures StepPatched(code, env, P, j, vtarget, reg, dtarget, pc, r)
  {
    assert ShapeAt(code, base, P, last, pc);
    var code' := PatchJump(code, j, vtarget, reg, dtarget);
    assert code'[pc] == code[pc];
    assert IsTest(code[pc]) ==> code'[pc + 1] == code[pc + 1];
    hide Shape, PatchJump;
  }

  lemma PatchStep(code: seq<Instr>, env: Env, base: nat, P: set<nat>, last: nat, j: nat, vtarget: int, reg: nat, dtarget: int, pc: nat, r: Regs)
    requires MayPatch(code, base, P, last, j, vtarget, dtarget) && Leader(code, base, pc) && pc < |code|
    ensures StepPatched(code, env, P, j, vtarget, reg, dtarget, pc, r)
  {
    hide MayPatch, StepPatched;
    if pc == j || (pc + 1 == j && IsTest(code[pc])) {
      PatchStepHere(code, env, base, P, last, j, vtarget, reg, dtarget, pc, r);
    } else {
      PatchStepAway(code, env, base, P, last, j, vtarget, reg, dtarget, pc, r);
    }
  }

  lemma {:induction false} ExecPatch(code: seq<Instr>, env: Env, base: nat, P: set<nat>, last: nat, j: nat, vtarget: int, reg: nat, dtarget: int, pc: nat, r: Regs)
    requires MayPatch(code, base, P, last, j, vtarget, dtarget) && Leader(code, base, pc)
    ensures var code' := PatchJump(code, j, vtarget, reg, dtarget);
      Exec(code', env, P - {j}, pc, r) == AfterPatch(Exec(code, env, P, pc, r), code, code', env, P - {j}, j, vtarget, reg, dtarget)
    decreases |code| - pc
  {
    if pc < |code| {
      NextOk(code, env, base, P, last, pc, r);
      PatchStep(code, env, base, P, last, j, vtarget, reg, dtarget, pc, r);
      var n := Next(code, env, P, pc, r);
      if n.Go? { ExecPatch(code, env, base, P, last, j, vtarget, reg, dtarget, n.pc, n.r); }
    }
  }

  // A whole list of jumps.
  function PatchAll(code: seq<Instr>, xs: seq<nat>, vtarget: int, reg: nat, dtarget: int): (code': seq<Instr>)
    ensures |code'| == |code|
    decreases |xs|
  {
    if xs == [] then code else PatchAll(PatchJump(code, xs[0], vtarget, reg, dtarget), xs[1..], vtarget, reg, dtarget)
  }

  function Members(xs: seq<nat>): set<nat> {
    set x | x in xs
  }

  ghost predicate MayPatchAll(code: seq<Instr>, base: nat, P: set<nat>, last: nat, xs: seq<nat>, vtarget: int, dtarget: int) {
    && Shape(code, base, P, last) && NoDup(xs)
    && forall x :: x in xs ==> MayPatch(code, base, P, last, x, vtarget, dtarget)
  }

  // What patching one jump of a list leaves of the others.
  lemma PatchOthers(code: seq<Instr>, base: nat, P: set<nat>, last: nat, xs: seq<nat>, vtarget: int, reg: nat, dtarget: int)
    requires MayPatchAll(code, base, P, last, xs, vtarget, dtarget) && xs != []
    ensures MayPatchAll(PatchJump(code, xs[0], vtarget, reg, dtarget), base, P - {xs[0]}, last, xs[1..], vtarget, dtarget)
    ensures forall x :: x != xs[0] ==> (HasValue(PatchJump(code, xs[0], vtarget, reg, dtarget), x) <==> HasValue(code, x))
    ensures forall x :: x != xs[0] && HasValue(code, x) ==> PatchJump(code, xs[0], vtarget, reg, dtarget)[x - 1] == code[x - 1]
  {
    var j := xs[0];
    var code' := PatchJump(code, j, vtarget, reg, dtarget);
    assert MayPatch(code, base, P, last, j, vtarget, dtarget);
    PatchShape(code, base, P, last, j, vtarget, reg, dtarget);
    forall x | x in xs[1..] ensures MayPatch(code', base, P - {j}, last, x, vtarget, dtarget) {
      assert x in xs && x != j;
      assert MayPatch(code, base, P, last, x, vtarget, dtarget);
      PatchLeader(code, base, P, last, j, vtarget, reg, dtarget, Landing(code, x, vtarget, dtarget));
    }
  }

  function AfterPatchAll(o: Outcome, code: seq<Instr>, code': seq<Instr>, env: Env, P': set<nat>, xs: seq<nat>, vtarget: int, reg: nat, dtarget: int): Outcome {
    if o.Exit? && o.j in xs && Landing(code, o.j, vtarget, dtarget) >= 0
    then Exec(code', env, P', Landing(code, o.j, vtarget, dtarget), Carried(code, o.j, reg, o.r)) else o
  }

  lemma {:induction false} ExecPatchAll(code: seq<Instr>, env: Env, base: nat, P: set<nat>, last: nat, xs: seq<nat>, vtarget: int, reg: nat, dtarget: int, pc: nat, r: Regs)
    requires MayPatchAll(code, base, P, last, xs, vtarget, dtarget) && Leader(code, base, pc)
    ensures var code' := PatchAll(code, xs, vtarget, reg, dtarget);
      && Shape(code', base, P - Members(xs), last)
      && (forall x :: Leader(code', base, x) <==> Leader(code, base, x))
      && Exec(code', env, P - Members(xs), pc, r)
         == AfterPatchAll(Exec(code, env, P, pc, r), code, code', env, P - Members(xs), xs, vtarget, reg, dtarget)
    decreases |xs|
  {
    if xs == [] {
      assert P - Members(xs) == P;
    } else {
      var j, rest := xs[0], xs[1..];
      var code1 := PatchJump(code, j, vtarget, reg, dtarget);
      assert P - {j} - Members(rest) == P - Members(xs);
      PatchOthers(code, base, P, last, xs, vtarget, reg, dtarget);
      ExecPatch(code, env, base, P, last, j, vtarget, reg, dtarget, pc, r);
      forall x ensures Leader(code1, base, x) <==> Leader(code, base, x) {
        PatchLeader(code, base, P, last, j, vtarget, reg, dtarget, x);
      }
      ExecPatchAll(code1, env, base, P - {j}, last, rest, vtarget, reg, dtarget, pc, r);
      var o := Exec(code, env, P, pc, r);
      if o.Exit? && o.j == j {
        ExecPatchAll(code1, env, base, P - {j}, last, rest, vtarget, reg, dtarget, Landing(code, j, vtarget, dtarget), Carried(code, j, reg, o.r));
      }
    }
  }
}
