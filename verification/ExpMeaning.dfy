// Expression descriptors, and what it means that the code generated so far, together
// with a descriptor, computes a value.

module ExpMeaning {
  import opened Common
  import opened LuaVM
  import opened JumpCode
  import opened CodeState
  import opened CodeGen

  datatype Kind = VNil | VTrue | VFalse | VK | VKInt | VNonReloc | VLocal | VUpval | VJmp | VReloc

  // t and f are the lists of jumps that leave the expression when it is true or false.
  datatype ExpDesc = ExpDesc(k: Kind, info: nat, ival: int, t: int, f: int)

  predicate HasJumps(e: ExpDesc) {
    e.t != e.f
  }

  // A run through the code before the expression, which ends with outcome o0 from
  // registers r; v is the value of the expression there (None for an error).
  // Registers below lo, but for dst, have to survive.
  datatype Meaning = Meaning(env: Env, r: Regs, lo: nat, dst: nat, o0: Outcome, v: Option<Value>)

  ghost predicate Proper(m: Meaning) {
    |m.r| >= MAXREGS && (m.o0.Fall? ==> |m.o0.r| == |m.r|)
  }

  ghost predicate Same(m: Meaning, r: Regs) {
    m.o0.Fall? && |r| == |m.o0.r| && forall i :: 0 <= i < m.lo && i != m.dst ==> At(r, i) == At(m.o0.r, i)
  }

  // The code in which the value of the expression is computed, short of the
  // instruction that has no target register yet.
  function Ground(s: Code, e: ExpDesc): Code {
    if e.k.VReloc? && |s.code| > 0 then Before(s, |s.code| - 1) else s
  }

  // The value when execution falls through.
  function KindValue(code: seq<Instr>, e: ExpDesc, env: Env, r: Regs): Value {
    match e.k
    case VNil => Nil
    case VTrue => Bool(true)
    case VFalse => Bool(false)
    case VK => At(env.k, e.info)
    case VKInt => Int(e.ival)
    case VNonReloc => At(r, e.info)
    case VLocal => At(r, e.info)
    case VUpval => At(env.up, e.info)
    case VJmp => Bool(false)
    case VReloc =>
      if e.info < |code| && code[e.info].Not? then Bool(IsFalse(At(r, code[e.info].b)))
      else if e.info < |code| && code[e.info].GetUpval? then At(env.up, code[e.info].b)
      else Nil
  }

  // The value when execution leaves through the jump at j, of the list for b.
  function ExitValue(code: seq<Instr>, j: nat, b: bool, r: Regs): Value {
    if HasValue(code, j) then At(r, code[j - 1].b) else Bool(b)
  }

  ghost predicate Denotes(s: Code, e: ExpDesc, T: seq<nat>, F: seq<nat>, m: Meaning, v: Value, o: Outcome) {
    match o
    case Fall(r) => Same(m, r) && KindValue(s.code, e, m.env, r) == v
    case Exit(j, r) =>
      && Same(m, r)
      && ((j in T && !IsFalse(v) && ExitValue(s.code, j, true, r) == v)
          || (j in F && IsFalse(v) && ExitValue(s.code, j, false, r) == v)
          || (e.k.VJmp? && j == e.info && v == Bool(true)))
    case _ => false
  }

  ghost predicate Means(s: Code, e: ExpDesc, T: seq<nat>, F: seq<nat>, m: Meaning) {
    var o := Out(Ground(s, e), m.env, m.r);
    && Proper(m) && (m.o0.Exit? ==> m.o0.j !in Own(e, T, F))
    && if m.o0.Fall? then (match m.v case None => o == Fault case Some(v) => Denotes(s, e, T, F, m, v, o)) else o == m.o0
  }

  // ----------------------------------------------------------------- well-formedness

  predicate Relocatable(i: Instr) {
    i.Not? || i.GetUpval?
  }

  function Own(e: ExpDesc, T: seq<nat>, F: seq<nat>): set<nat> {
    Members(T) + Members(F) + (if e.k.VJmp? then {e.info} else {})
  }

  ghost predicate ExpShape(s: Code, k: seq<Value>, nactvar: nat, freereg: nat, e: ExpDesc) {
    match e.k
    case VK => e.info < |k|
    case VNonReloc => e.info < freereg
    case VLocal => e.info < nactvar
    case VJmp => EndsTest(s) && s.code[|s.code| - 2].Cmp? && e.info == |s.code| - 1 && s.code[e.info] == Jmp(NO_JUMP)
    case VReloc => EndsPlain(s) && e.info == |s.code| - 1 && Relocatable(s.code[e.info])
    case _ => true
  }

  ghost predicate ExpOk(s: Code, k: seq<Value>, nactvar: nat, freereg: nat, e: ExpDesc, T: seq<nat>, F: seq<nat>) {
    && IsList(s.code, e.t, T) && IsList(s.code, e.f, F) && TwoLists(s, T, F) && (e.k.VJmp? ==> e.info !in T && e.info !in F)
    && ExpShape(s, k, nactvar, freereg, e)
  }

  // Pending jumps that do not belong to the expression are left alone.
  ghost predicate Keeps(s: Code, s': Code, own: set<nat>) {
    forall j :: j in s.pend && j !in own ==> KeepsJump(s.code, s'.code, j)
  }

  ghost predicate KeepsJump(code: seq<Instr>, code': seq<Instr>, j: nat) {
    && j < |code| && j < |code'| && code'[j] == code[j]
    && (HasValue(code', j) <==> HasValue(code, j)) && (HasValue(code, j) ==> code'[j - 1] == code[j - 1])
  }

  // From 'own' to 'own'', the rest staying as it was.
  ghost predicate Frame(s: Code, s': Code, own: set<nat>, own': set<nat>) {
    && Keeps(s, s', own) && s'.base == s.base
    && s'.pend == (s.pend - own) + own' && (s.pend - own) !! own'
  }

  lemma FrameRefl(s: Code, own: set<nat>)
    requires own <= s.pend && WF(s)
    ensures Frame(s, s, own, own)
  {
    forall j | j in s.pend ensures j < |s.code| { assert j in All(s) && JumpIn(s, j); }
  }

  lemma FrameTrans(s: Code, s': Code, s'': Code, own: set<nat>, own': set<nat>, own'': set<nat>)
    requires Frame(s, s', own, own') && Frame(s', s'', own', own'')
    ensures Frame(s, s'', own, own'')
  {
    assert s''.pend == (s.pend - own) + own'';
    forall j | j in s.pend && j !in own ensures KeepsJump(s.code, s''.code, j) {
      assert j in s'.pend && j !in own';
      assert KeepsJump(s.code, s'.code, j) && KeepsJump(s'.code, s''.code, j);
    }
  }

  // Lists outside are still lists.
  lemma FrameList(s: Code, s': Code, own: set<nat>, own': set<nat>, head: int, xs: seq<nat>)
    requires Frame(s, s', own, own') && IsList(s.code, head, xs) && Members(xs) <= s.pend - own
    ensures IsList(s'.code, head, xs) && Members(xs) <= s'.pend - own'
    ensures forall x :: x in xs ==> KeepsJump(s.code, s'.code, x)
  {
    forall x | x in xs ensures KeepsJump(s.code, s'.code, x) { assert x in Members(xs); }
    ListFrame(s.code, s'.code, head, xs);
  }

  // ------------------------------------------------------------------ results of steps

  // The value has been put in a register.
  ghost predicate Loads(s: Code, reg: nat, m: Meaning) {
    Arrives(Out(s, m.env, m.r), reg, m)
  }

  ghost predicate Arrives(o: Outcome, reg: nat, m: Meaning) {
    if !m.o0.Fall? then o == m.o0
    else match m.v
      case None => o == Fault
      case Some(v) => o.Fall? && Same(m, o.r) && At(o.r, reg) == v
  }

  // Execution goes on if the value is as 'cond' says, and otherwise leaves with it
  // through a jump of xs.
  ghost predicate Conds(s: Code, xs: seq<nat>, cond: bool, m: Meaning) {
    var o := Out(s, m.env, m.r);
    if !m.o0.Fall? then o == m.o0
    else match m.v
      case None => o == Fault
      case Some(v) =>
        if IsFalse(v) != cond then o.Fall? && Same(m, o.r)
        else o.Exit? && o.j in xs && Same(m, o.r) && ExitValue(s.code, o.j, !cond, o.r) == v
  }

  // Where the target may be written.
  ghost predicate MayWrite(m: Meaning, reg: nat) {
    reg < MAXREGS && (reg >= m.lo || reg == m.dst)
  }

  // From a state where the value is known to one where the register has it, the exits
  // being the same.
  lemma WriteMeans(s: Code, e: ExpDesc, T: seq<nat>, F: seq<nat>, m: Meaning, s': Code, reg: nat)
    requires Means(s, e, T, F, m) && MayWrite(m, reg) && !e.k.VJmp?
    requires var o := Out(Ground(s, e), m.env, m.r);
      Out(s', m.env, m.r) == if o.Fall? then Fall(Set(o.r, reg, KindValue(s.code, e, m.env, o.r))) else o
    requires forall j :: j in T || j in F ==> KeepsJump(s.code, s'.code, j)
    ensures Means(s', e.(k := VNonReloc, info := reg), T, F, m)
  {}

  // The same code, described differently.
  lemma Redescribe(s: Code, e: ExpDesc, T: seq<nat>, F: seq<nat>, m: Meaning, s': Code, e': ExpDesc)
    requires Means(s, e, T, F, m) && !e.k.VJmp? && !e'.k.VJmp?
    requires Out(Ground(s', e'), m.env, m.r) == Out(Ground(s, e), m.env, m.r)
    requires forall r: Regs :: KindValue(s'.code, e', m.env, r) == KindValue(s.code, e, m.env, r)
    requires forall j :: j in T || j in F ==> KeepsJump(s.code, s'.code, j)
    ensures Means(s', e', T, F, m)
  {}

  // Emission keeps the pending jumps.
  lemma EmitFrame(s: Code, ins: seq<Instr>)
    requires WF(s)
    ensures Frame(s, Emitted(s, ins), {}, {})
    ensures forall own :: own <= s.pend ==> Frame(s, Emitted(s, ins), own, own)
  {
    var s' := Emitted(s, ins);
    forall j | j in s.pend ensures KeepsJump(s.code, s'.code, j) {
      assert j in All(s) && JumpIn(s, j) && j !in s.jumps by {
        assert j !in Members(s.jumps);
      }
      PatchApartJump(s, j);
    }
  }

  lemma PatchApartJump(s: Code, j: nat)
    requires WF(s) && j in s.pend && j < |s.code| && s.code[j].Jmp? && j !in s.jumps
    ensures KeepsJump(s.code, Discharged(s).code, j)
  {
    forall x | x in s.jumps ensures x < |s.code| && s.code[x].Jmp? { assert x in All(s) && JumpIn(s, x); }
    PatchApart(s.code, s.jumps, |s.code|, NO_REG, |s.code|, j);
  }

  lemma TestFrame(s: Code, i: Instr, own: set<nat>)
    requires WF(s) && own <= s.pend
    ensures Frame(s, Tested(s, i), own, own + {|s.code| + 1})
  {
    EmitFrame(s, [i, Jmp(NO_JUMP)]);
    forall j | j in s.pend ensures j < |s.code| { assert j in All(s) && JumpIn(s, j); }
  }

  // All jumps have values, and the register has the value otherwise.
  lemma ArrivesValues(s: Code, e: ExpDesc, T: seq<nat>, F: seq<nat>, reg: nat, m: Meaning)
    requires Means(s, e, T, F, m) && e.k.VNonReloc? && e.info == reg && MayWrite(m, reg) && TwoLists(s, T, F)
    requires forall j :: j in T || j in F ==> HasValue(s.code, j)
    ensures Arrives(AfterLoads(Out(s, m.env, m.r), s, T, F, reg), reg, m)
  {
    assert forall j :: j in T ==> j in Members(T);
    assert forall j :: j in F ==> j in Members(F);
  }

  lemma ArrivesBools(s: Code, e: ExpDesc, T: seq<nat>, F: seq<nat>, reg: nat, m: Meaning)
    requires Means(s, e, T, F, m) && e.k.VNonReloc? && e.info == reg && MayWrite(m, reg)
    requires Members(T) !! Members(F)
    ensures Arrives(AfterBools(Out(s, m.env, m.r), s, true, T, F, reg), reg, m)
  {
    assert forall j :: j in F ==> j in Members(F);
    assert forall j :: j in T ==> j in Members(T);
    assert forall j :: j in T ==> j !in F;
  }

  lemma ArrivesTest(s: Code, e: ExpDesc, T: seq<nat>, F: seq<nat>, reg: nat, m: Meaning)
    requires Means(s, e, T, F, m) && e.k.VJmp? && MayWrite(m, reg)
    requires Members(T) !! Members(F) && e.info !in F && !HasValue(s.code, e.info)
    ensures Arrives(AfterBools(Out(s, m.env, m.r), s, false, T + [e.info], F, reg), reg, m)
  {
    assert forall j :: j in F ==> j in Members(F);
    assert forall j :: j in T ==> j in Members(T);
    assert forall j :: j in T ==> j !in F;
  }
}
