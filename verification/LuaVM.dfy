// The instructions that expressions compile to, and what the virtual machine does with
// them. Code still being generated has pending jumps, whose targets are not known yet:
// running into one leaves the code.

module LuaVM {
  import opened Common

  datatype Value = Nil | Bool(b: bool) | Int(n: int) | Str(s: string)

  predicate IsFalse(v: Value) {
    v == Nil || v == Bool(false)
  }

  predicate StrLess(s: string, t: string) {
    t != [] && (s == [] || s[0] < t[0] || (s[0] == t[0] && StrLess(s[1..], t[1..])))
  }

  datatype CmpOp = Eq | Lt | Le

  // None: the values cannot be compared, which raises an error.
  function Compare(op: CmpOp, v: Value, w: Value): Option<bool> {
    match op
    case Eq => Some(v == w)
    case Lt =>
      if v.Int? && w.Int? then Some(v.n < w.n) else if v.Str? && w.Str? then Some(StrLess(v.s, w.s)) else None
    case Le =>
      if v.Int? && w.Int? then Some(v.n <= w.n) else if v.Str? && w.Str? then Some(!StrLess(w.s, v.s)) else None
  }

  const BITRK: nat := 256  // set in operands that are constants

  datatype Instr =
    | Move(a: nat, b: nat)
    | LoadK(a: nat, bx: nat)
    | LoadKX(a: nat)
    | ExtraArg(ax: nat)
    | LoadBool(a: nat, b: nat, c: nat)
    | LoadNil(a: nat, b: nat)
    | GetUpval(a: nat, b: nat)
    | Not(a: nat, b: nat)
    | Jmp(sbx: int)
    | Cmp(op: CmpOp, a: nat, b: nat, c: nat)
    | Test(a: nat, c: nat)
    | TestSet(a: nat, b: nat, c: nat)

  type Regs = seq<Value>

  // What a function sees besides its registers: its constants and upvalues.
  datatype Env = Env(k: seq<Value>, up: seq<Value>)

  datatype Outcome =
    | Fall(r: Regs)           // reached the end of the code
    | Exit(j: nat, r: Regs)   // reached the pending jump at j
    | Fault                   // raised an error
    | Stuck                   // ran out of the code

  function At(s: seq<Value>, i: nat): Value {
    if i < |s| then s[i] else Nil
  }

  function Set(r: Regs, i: nat, v: Value): (r': Regs)
    ensures |r'| == |r|
  {
    if i < |r| then r[i := v] else r
  }

  function Nils(r: Regs, a: nat, b: nat): (r': Regs)
    ensures |r'| == |r|
  {
    seq(|r|, i requires 0 <= i < |r| => if a <= i <= a + b then Nil else r[i])
  }

  function RK(env: Env, r: Regs, x: nat): Value {
    if x >= BITRK then At(env.k, x - BITRK) else At(r, x)
  }

  datatype Control = Go(pc: nat, r: Regs) | Done(o: Outcome)

  // The jump at j, which may be part of the test before it.
  function Jump(code: seq<Instr>, P: set<nat>, j: nat, r: Regs): Control {
    if j >= |code| || !code[j].Jmp? then Done(Stuck)
    else if j in P then Done(Exit(j, r))
    else if code[j].sbx >= 0 then Go(j + 1 + code[j].sbx, r)
    else Done(Stuck)  // expressions have no backward jumps
  }

  // One instruction. A test that does not skip performs the jump that follows it.
  function Next(code: seq<Instr>, env: Env, P: set<nat>, pc: nat, r: Regs): Control
    requires pc < |code|
  {
    match code[pc]
    case Move(a, b) => Go(pc + 1, Set(r, a, At(r, b)))
    case LoadK(a, bx) => Go(pc + 1, Set(r, a, At(env.k, bx)))
    case LoadKX(a) =>
      if pc + 1 < |code| && code[pc + 1].ExtraArg? then Go(pc + 2, Set(r, a, At(env.k, code[pc + 1].ax))) else Done(Stuck)
    case ExtraArg(_) => Done(Stuck)
    case LoadBool(a, b, c) => Go(if c != 0 then pc + 2 else pc + 1, Set(r, a, Bool(b != 0)))
    case LoadNil(a, b) => Go(pc + 1, Nils(r, a, b))
    case GetUpval(a, b) => Go(pc + 1, Set(r, a, At(env.up, b)))
    case Not(a, b) => Go(pc + 1, Set(r, a, Bool(IsFalse(At(r, b)))))
    case Jmp(_) => Jump(code, P, pc, r)
    case Cmp(op, a, b, c) =>
      (match Compare(op, RK(env, r, b), RK(env, r, c))
       case None => Done(Fault)
       case Some(x) => if x != (a != 0) then Go(pc + 2, r) else Jump(code, P, pc + 1, r))
    case Test(a, c) =>
      if (if c != 0 then IsFalse(At(r, a)) else !IsFalse(At(r, a))) then Go(pc + 2, r)
      else Jump(code, P, pc + 1, r)
    case TestSet(a, b, c) =>
      if (if c != 0 then IsFalse(At(r, b)) else !IsFalse(At(r, b))) then Go(pc + 2, r)
      else Jump(code, P, pc + 1, if pc + 1 in P then r else Set(r, a, At(r, b)))
  }

  // Running the code from pc on. P are the pending jumps.
  function Exec(code: seq<Instr>, env: Env, P: set<nat>, pc: nat, r: Regs): (o: Outcome)
    decreases |code| - pc
  {
    if pc == |code| then Fall(r)
    else if pc > |code| then Stuck
    else
      match Next(code, env, P, pc, r)
      case Done(o) => o
      case Go(pc', r') => if pc' > pc then Exec(code, env, P, pc', r') else Stuck
  }
}
