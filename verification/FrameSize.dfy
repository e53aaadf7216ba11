// The registers that code uses: they are those of its stack frame, whose size the
// function states. Runs neither read nor change what is beyond.

module FrameSize {
  import opened Common
  import opened LuaVM
  import opened JumpCode
  import opened CodeState

  // ------------------------------------------------------------------- the instructions

  predicate OperandIn(x: nat, n: nat) {
    x >= BITRK || x < n
  }

  // The instruction names registers below n. A test whose register is not known yet names
  // NO_REG.
  predicate Within(i: Instr, n: nat) {
    match i
    case Move(a, b) => a < n && b < n
    case LoadK(a, _) => a < n
    case LoadKX(a) => a < n
    case LoadBool(a, _, _) => a < n
    case LoadNil(a, b) => a + b < n
    case GetUpval(a, _) => a < n
    case Not(a, b) => a < n && b < n
    case Cmp(_, _, b, c) => OperandIn(b, n) && OperandIn(c, n)
    case Test(a, _) => a < n
    case TestSet(a, b, _) => (a < n || a == NO_REG) && b < n
    case _ => true
  }

  predicate Unsettled(i: Instr) {
    i.TestSet? && i.a == NO_REG
  }

  // Only tests whose jumps are pending may have no register yet.
  ghost predicate InFrame(s: Code, n: nat) {
    forall i :: 0 <= i < |s.code| ==> Within(s.code[i], n) && (Unsettled(s.code[i]) ==> i + 1 in All(s))
  }

  predicate AllWithin(code: seq<Instr>, n: nat) {
    forall i :: 0 <= i < |code| ==> Within(code[i], n) && !Unsettled(code[i])
  }

  // -------------------------------------------------------------- changes of the code

  lemma WiderFrame(s: Code, n: nat, n': nat)
    requires InFrame(s, n) && n <= n'
    ensures InFrame(s, n')
  {}

  // Instructions that are as before, or settled.
  ghost predicate Similar(s: Code, s': Code, n: nat) {
    && |s'.code| >= |s.code| && All(s) <= All(s')
    && forall i :: 0 <= i < |s'.code| ==>
         (i < |s.code| && s'.code[i] == s.code[i]) || (Within(s'.code[i], n) && (Unsettled(s'.code[i]) ==> i + 1 in All(s')))
  }

  lemma SimilarFrame(s: Code, s': Code, n: nat)
    requires InFrame(s, n) && Similar(s, s', n)
    ensures InFrame(s', n)
  {}

  lemma {:induction false} PatchedAt(code: seq<Instr>, xs: seq<nat>, vtarget: int, reg: nat, dtarget: int, n: nat, i: nat)
    requires i < |code| && Within(code[i], n) && (reg == NO_REG || reg < n <= NO_REG) && forall x :: x in xs ==> x < |code|
    ensures var i' := PatchAll(code, xs, vtarget, reg, dtarget)[i];
      Within(i', n) && (Unsettled(i') ==> Unsettled(code[i]) && i + 1 !in xs)
    decreases |xs|
  {
    if xs != [] {
      assert forall x :: x in xs <==> x == xs[0] || x in xs[1..];
      PatchedAt(PatchJump(code, xs[0], vtarget, reg, dtarget), xs[1..], vtarget, reg, dtarget, n, i);
    }
  }

  // The tests of the patched jumps have their register, or need none.
  lemma PatchedFrame(s: Code, s': Code, xs: seq<nat>, vtarget: int, reg: nat, dtarget: int, n: nat)
    requires InFrame(s, n) && (reg == NO_REG || reg < n <= NO_REG) && forall x :: x in xs ==> x < |s.code|
    requires s'.code == PatchAll(s.code, xs, vtarget, reg, dtarget) && All(s) - Members(xs) <= All(s')
    ensures InFrame(s', n)
  {
    forall i | 0 <= i < |s'.code| ensures Within(s'.code[i], n) && (Unsettled(s'.code[i]) ==> i + 1 in All(s')) {
      PatchedAt(s.code, xs, vtarget, reg, dtarget, n, i);
    }
  }

  lemma DischargedFrame(s: Code, n: nat)
    requires InFrame(s, n) && forall x :: x in s.jumps ==> x < |s.code|
    ensures InFrame(Discharged(s), n)
  {
    PatchedFrame(s, Discharged(s), s.jumps, |s.code|, NO_REG, |s.code|, n);
  }

  lemma JumpsBefore(s: Code)
    requires WF(s)
    ensures forall x :: x in All(s) ==> x < |s.code|
    ensures forall x :: x in s.jumps ==> x < |s.code|
  {
    forall x | x in All(s) ensures x < |s.code| { assert JumpIn(s, x); }
    forall x | x in s.jumps ensures x in All(s) { assert x in Members(s.jumps); }
  }

  lemma EmittedFrame(s: Code, ins: seq<Instr>, n: nat)
    requires WF(s) && InFrame(s, n) && forall i :: 0 <= i < |ins| ==> Within(ins[i], n) && !Unsettled(ins[i])
    ensures InFrame(Emitted(s, ins), n)
  {
    hide WF;
    JumpsBefore(s);
    DischargedFrame(s, n);
    var d := Discharged(s);
    assert forall i :: 0 <= i < |d.code| ==> Emitted(s, ins).code[i] == d.code[i];
  }

  lemma TestedFrame(s: Code, i: Instr, n: nat)
    requires WF(s) && InFrame(s, n) && Within(i, n)
    ensures InFrame(Tested(s, i), n)
  {
    hide WF;
    JumpsBefore(s);
    DischargedFrame(s, n);
    var d, s' := Discharged(s), Tested(s, i);
    assert forall j :: 0 <= j < |d.code| ==> s'.code[j] == d.code[j];
    assert s'.code[|s.code|] == i && s'.code[|s.code| + 1] == Jmp(NO_JUMP);
  }

  lemma RelinkedFrame(s: Code, code': seq<Instr>, n: nat)
    requires InFrame(s, n) && Relinked(s, code')
    ensures InFrame(s.(code := code'), n)
  {
    assert All(s.(code := code')) == All(s);
  }

  lemma HereInFrame(s: Code, xs: seq<nat>, n: nat)
    requires InFrame(s, n)
    ensures InFrame(ToHere(s, xs), n)
  {
    assert forall x :: x in Members(s.jumps + xs) <==> x in Members(s.jumps) || x in Members(xs);
  }

  lemma SkippingFrame(s: Code, skip: bool, off: int, n: nat)
    requires InFrame(s, n)
    ensures InFrame(Skipping(s, skip, off), n)
  {
    if skip {
      assert Members([|s.code|] + s.jumps) == {|s.code|} + Members(s.jumps);
      SimilarFrame(s, Skipping(s, skip, off), n);
    }
  }

  lemma UnvaluedStep(s: Code, x: nat, n: nat)
    requires InFrame(s, n)
    ensures InFrame(s.(code := PatchReg(s.code, x, NO_REG)), n)
  {
    assert All(s.(code := PatchReg(s.code, x, NO_REG))) == All(s);
  }

  // The last instruction is taken off.
  lemma CutInFrame(s: Code, n: nat)
    requires s.code != [] && CanCut(s, |s.code| - 1) && InFrame(s, n)
    ensures InFrame(Before(s, |s.code| - 1), n)
  {
    var b := Before(s, |s.code| - 1);
    forall i | 0 <= i < |b.code| ensures Within(b.code[i], n) && (Unsettled(b.code[i]) ==> i + 1 in All(b)) {
      assert b.code[i] == s.code[i];
    }
  }

  lemma ReplacedFrame(s: Code, j: nat, i: Instr, n: nat)
    requires InFrame(s, n) && j < |s.code| && Within(i, n) && !Unsettled(i)
    ensures InFrame(s.(code := s.code[j := i]), n)
  {
    assert All(s.(code := s.code[j := i])) == All(s);
  }

  lemma ClosedFrame(s: Code, n: nat)
    requires InFrame(s, n) && s.pend == {} && s.jumps == []
    ensures AllWithin(s.code, n)
  {}

  // ----------------------------------------------------------------------------- runs

  // The outcome with more registers, which have the values t.
  function Extended(o: Outcome, t: seq<Value>): Outcome {
    match o
    case Fall(r) => Fall(r + t)
    case Exit(j, r) => Exit(j, r + t)
    case _ => o
  }

  lemma MoreRegs(r: Regs, t: Regs, n: nat)
    requires n <= |r| && n <= BITRK
    ensures forall a: nat :: a < n ==> At(r + t, a) == At(r, a)
    ensures forall a: nat, v: Value :: a < n ==> Set(r + t, a, v) == Set(r, a, v) + t
    ensures forall a: nat, b: nat :: a + b < n ==> Nils(r + t, a, b) == Nils(r, a, b) + t
    ensures forall env, x: nat :: OperandIn(x, n) ==> RK(env, r + t, x) == RK(env, r, x)
  {
    forall a: nat, v: Value | a < n ensures Set(r + t, a, v) == Set(r, a, v) + t {}
    forall a: nat, b: nat | a + b < n ensures Nils(r + t, a, b) == Nils(r, a, b) + t {}
  }

  function Widened(c: Control, t: seq<Value>): Control {
    match c case Go(pc, r) => Go(pc, r + t) case Done(o) => Done(Extended(o, t))
  }

  lemma NextInFrame(code: seq<Instr>, env: Env, P: set<nat>, pc: nat, r: Regs, t: Regs, n: nat)
    requires AllWithin(code, n) && n <= |r| && n <= BITRK && pc < |code|
    ensures Next(code, env, P, pc, r + t) == Widened(Next(code, env, P, pc, r), t)
  {
    hide Set, Nils, At, RK, Compare;
    MoreRegs(r, t, n);
    assert Within(code[pc], n);
  }

  lemma NextKeepsFrame(code: seq<Instr>, env: Env, P: set<nat>, pc: nat, r: Regs)
    requires pc < |code|
    ensures match Next(code, env, P, pc, r)
            case Go(_, r') => |r'| == |r|
            case Done(o) => (o.Fall? ==> |o.r| == |r|) && (o.Exit? ==> |o.r| == |r|)
  {}

  lemma {:induction false} ExecKeepsFrame(code: seq<Instr>, env: Env, P: set<nat>, pc: nat, r: Regs)
    ensures var o := Exec(code, env, P, pc, r); (o.Fall? ==> |o.r| == |r|) && (o.Exit? ==> |o.r| == |r|)
    decreases |code| - pc
  {
    if pc < |code| {
      NextKeepsFrame(code, env, P, pc, r);
      var c := Next(code, env, P, pc, r);
      if c.Go? && c.pc > pc { ExecKeepsFrame(code, env, P, c.pc, c.r); }
    }
  }

  // What is beyond the frame is neither read nor changed.
  lemma {:induction false} ExecInFrame(code: seq<Instr>, env: Env, P: set<nat>, pc: nat, r: Regs, t: Regs, n: nat)
    requires AllWithin(code, n) && n <= |r| && n <= BITRK
    ensures Exec(code, env, P, pc, r + t) == Extended(Exec(code, env, P, pc, r), t)
    decreases |code| - pc
  {
    if pc < |code| {
      NextInFrame(code, env, P, pc, r, t, n);
      NextKeepsFrame(code, env, P, pc, r);
      var c := Next(code, env, P, pc, r);
      if c.Go? && c.pc > pc { ExecInFrame(code, env, P, c.pc, c.r, t, n); }
    }
  }
}
