// Code generation for expressions (lcode.c): discharging, tests and their jumps.

module LuaK {
  import opened Common
  import opened LuaVM
  import opened JumpCode
  import opened CodeState
  import opened FrameSize
  import opened CodeGen
  import opened ExpMeaning

  ghost predicate Exp(fs: FuncState, e: ExpDesc, T: seq<nat>, F: seq<nat>)
    reads fs
  {
    ExpOk(fs.View(), fs.k, fs.nactvar, fs.freereg, e, T, F)
  }

  // Given all constants of the finished function.
  ghost predicate Computes(fs: FuncState, e: ExpDesc, T: seq<nat>, F: seq<nat>, m: Meaning)
    reads fs
  {
    fs.k <= m.env.k ==> Means(fs.View(), e, T, F, m)
  }

  lemma FrameAll(s: Code, s': Code, own: set<nat>)
    requires Frame(s, s', {}, {}) && own <= s.pend
    ensures Frame(s, s', own, own)
  {}

  lemma FrameExp(s: Code, s': Code, e: ExpDesc, T: seq<nat>, F: seq<nat>)
    requires Frame(s, s', {}, {}) && IsList(s.code, e.t, T) && IsList(s.code, e.f, F) && TwoLists(s, T, F)
    ensures IsList(s'.code, e.t, T) && IsList(s'.code, e.f, F) && TwoLists(s', T, F)
    ensures forall j :: j in T || j in F ==> KeepsJump(s.code, s'.code, j)
  {
    FrameList(s, s', {}, {}, e.t, T);
    FrameList(s, s', {}, {}, e.f, F);
  }

  // --------------------------------------------------------------------- variables

  lemma RelocGround(s: Code, i: Instr, env: Env, r: Regs)
    requires WF(s) && Relocatable(i)
    ensures var s' := Emitted(s, [i]);
      EndsPlain(s') && Before(s', |s.code|) == Discharged(s) && Out(Before(s', |s.code|), env, r) == Out(s, env, r)
  {
    var s' := Emitted(s, [i]);
    EmitPlain(s, i, env, r);
    DischargeOut(s, env, r);
    assert s'.code[..|s.code|] == Discharged(s).code;
    forall j | j in s.pend ensures j < |s.code| { assert j in All(s) && JumpIn(s, j); }
    assert Before(s', |s.code|).pend == s.pend;
  }

  // An upvalue is read by an instruction whose target is not known yet.
  method GetUpvalue(fs: FuncState, e: ExpDesc, ghost T: seq<nat>, ghost F: seq<nat>, ghost m: Meaning)
    returns (ok: bool, e': ExpDesc)
    requires e.k.VUpval? && fs.Valid() && Exp(fs, e, T, F) && Computes(fs, e, T, F, m)
    modifies fs`code, fs`jpc, fs`jumps
    ensures !ok ==> fs.AtLimit()
    ensures ok ==> fs.Valid() && Exp(fs, e', T, F) && Computes(fs, e', T, F, m)
    ensures ok ==> Frame(old(fs.View()), fs.View(), {}, {})
    ensures e'.t == e.t && e'.f == e.f && e'.k.VReloc?
  {
    hide Means, Shape, Exec, IsList, Frame, TwoLists;
    ghost var s := fs.View();
    RelocGround(s, GetUpval(0, e.info), m.env, m.r);
    EmitFrame(s, [GetUpval(0, e.info)]);
    var pc;
    ok, pc := fs.CodePlain(GetUpval(0, e.info));
    e' := e.(k := VReloc, info := pc);
    if ok {
      FrameExp(s, fs.View(), e, T, F);
      if fs.k <= m.env.k { Redescribe(s, e, T, F, m, fs.View(), e'); }
    }
  }

  lemma LocalMeans(s: Code, e: ExpDesc, T: seq<nat>, F: seq<nat>, m: Meaning)
    requires e.k.VLocal? && WF(s) && TwoLists(s, T, F) && Means(s, e, T, F, m)
    ensures Means(s, e.(k := VNonReloc), T, F, m)
  {}

  // luaK_dischargevars.
  method DischargeVars(fs: FuncState, e: ExpDesc, ghost T: seq<nat>, ghost F: seq<nat>, ghost m: Meaning)
    returns (ok: bool, e': ExpDesc)
    requires fs.Valid() && Exp(fs, e, T, F) && Computes(fs, e, T, F, m)
    modifies fs`code, fs`jpc, fs`jumps
    ensures !ok ==> fs.AtLimit()
    ensures ok ==> fs.Valid() && Exp(fs, e', T, F) && Computes(fs, e', T, F, m)
    ensures ok ==> Frame(old(fs.View()), fs.View(), {}, {})
    ensures e'.t == e.t && e'.f == e.f && !e'.k.VLocal? && !e'.k.VUpval?
    ensures !e.k.VUpval? ==> ok && fs.View() == old(fs.View()) && (!e.k.VLocal? ==> e' == e)
    ensures e.k.VLocal? ==> e' == e.(k := VNonReloc)
    ensures e.k.VUpval? ==> e'.k.VReloc?
  {
    hide Means, WF, IsList, TwoLists;
    ok := true;
    e' := e;
    if e.k.VUpval? {
      ok, e' := GetUpvalue(fs, e, T, F, m);
    } else {
      SameFrame(fs.View());
      if e.k.VLocal? {
        e' := e.(k := VNonReloc);
        if fs.k <= m.env.k { LocalMeans(fs.View(), e, T, F, m); }
      }
    }
  }

  lemma SameFrame(s: Code)
    requires WF(s)
    ensures Frame(s, s, {}, {})
  {
    FrameRefl(s, {});
  }

  // ------------------------------------------------------------------- into a register

  // What a step that puts the value in a register ensures: only its code has changed.
  ghost predicate Put(fs: FuncState, s: Code, e: ExpDesc, T: seq<nat>, F: seq<nat>, reg: nat, m: Meaning)
    reads fs
  {
    && fs.Valid() && Frame(s, fs.View(), {}, {})
    && Out(fs.View(), m.env, m.r)
       == (var o := Out(Ground(s, e), m.env, m.r); if o.Fall? then Fall(Set(o.r, reg, KindValue(s.code, e, m.env, o.r))) else o)
  }

  lemma PutMeans(fs: FuncState, s: Code, e: ExpDesc, T: seq<nat>, F: seq<nat>, reg: nat, m: Meaning)
    requires Put(fs, s, e, T, F, reg, m) && ExpOk(s, fs.k, fs.nactvar, fs.freereg, e, T, F) && !e.k.VJmp?
    requires MayWrite(m, reg) && Means(s, e, T, F, m) && reg < fs.freereg
    ensures Exp(fs, e.(k := VNonReloc, info := reg), T, F) && Means(fs.View(), e.(k := VNonReloc, info := reg), T, F, m)
  {
    FrameExp(s, fs.View(), e, T, F);
    hide Means;
    WriteMeans(s, e, T, F, m, fs.View(), reg);
  }

  lemma NilSet(r: Regs, reg: nat)
    ensures Nils(r, reg, 0) == Set(r, reg, Nil)
  {}

  lemma NilFrame(s: Code, s': Code)
    requires WF(s) && MergedNil(s, s')
    ensures Frame(s, s', {}, {})
  {
    forall j | j in s.pend ensures KeepsJump(s.code, s'.code, j) { assert j in All(s) && JumpIn(s, j); }
  }

  method PutNil(fs: FuncState, e: ExpDesc, ghost T: seq<nat>, ghost F: seq<nat>, reg: nat, ghost m: Meaning) returns (ok: bool)
    requires e.k.VNil? && fs.Valid() && Exp(fs, e, T, F) && reg < fs.freereg
    modifies fs`code, fs`jpc, fs`jumps
    ensures !ok ==> fs.AtLimit()
    ensures ok ==> Put(fs, old(fs.View()), e, T, F, reg, m)
  {
    hide WF;
    ghost var s := fs.View();
    EmitFrame(s, [LoadNil(reg, 0)]);
    ok := fs.LoadNils(reg, 1, m.env, m.r);
    if ok {
      if MergedNil(s, fs.View()) { NilFrame(s, fs.View()); }
      var o := Out(s, m.env, m.r);
      if o.Fall? { NilSet(o.r, reg); }
    }
  }

  // The value is loaded by one plain instruction.
  method PutPlain(fs: FuncState, e: ExpDesc, ghost T: seq<nat>, ghost F: seq<nat>, i: Instr, reg: nat, ghost m: Meaning) returns (ok: bool)
    requires fs.Valid() && Exp(fs, e, T, F) && !e.k.VReloc? && Plain(i) && Within(i, fs.maxstacksize)
    requires forall r: Regs :: Effect(i, m.env, r) == Set(r, reg, KindValue(fs.code, e, m.env, r))
    modifies fs`code, fs`jpc, fs`jumps
    ensures !ok ==> fs.AtLimit()
    ensures ok ==> Put(fs, old(fs.View()), e, T, F, reg, m)
  {
    hide WF;
    ghost var s := fs.View();
    EmitFrame(s, [i]);
    EmitPlain(s, i, m.env, m.r);
    var pc;
    ok, pc := fs.CodePlain(i);
  }

  method PutConstant(fs: FuncState, e: ExpDesc, ghost T: seq<nat>, ghost F: seq<nat>, index: nat, reg: nat, ghost m: Meaning) returns (ok: bool)
    requires fs.Valid() && Exp(fs, e, T, F) && !e.k.VReloc? && reg < fs.freereg
    requires forall r: Regs :: KindValue(fs.code, e, m.env, r) == At(m.env.k, index)
    modifies fs`code, fs`jpc, fs`jumps
    ensures !ok ==> fs.AtLimit()
    ensures ok ==> Put(fs, old(fs.View()), e, T, F, reg, m)
  {
    hide WF;
    ghost var s := fs.View();
    var ins := if index <= MAXARG_Bx then [LoadK(reg, index)] else [LoadKX(reg), ExtraArg(index)];
    EmitFrame(s, ins);
    EmitPlain(s, LoadK(reg, index), m.env, m.r);
    EmitLoadKX(s, reg, index, m.env, m.r);
    ok := fs.CodeK(reg, index);
  }

  // The instruction that computes the value gets its target.
  method PutReloc(fs: FuncState, e: ExpDesc, ghost T: seq<nat>, ghost F: seq<nat>, reg: nat, ghost m: Meaning)
    requires e.k.VReloc? && fs.Valid() && Exp(fs, e, T, F) && reg < fs.freereg
    modifies fs`code
    ensures Put(fs, old(fs.View()), e, T, F, reg, m)
  {
    hide WF, Frame, NoDup, TwoLists;
    ghost var s := fs.View();
    var i := fs.code[e.info];
    var i' := if i.Not? then Not(reg, i.b) else GetUpval(reg, i.b);
    assert Within(i, fs.maxstacksize);
    ReplaceOut(s, i', m.env, m.r);
    ReplacedFrame(s, e.info, i', fs.maxstacksize);
    fs.code := fs.code[e.info := i'];
    ReplaceFrame(s, i');
    ListFrame(s.code, fs.code, NO_JUMP, []);
  }

  lemma ReplaceFrame(s: Code, i: Instr)
    requires EndsPlain(s) && Plain(i)
    ensures Frame(s, s.(code := s.code[|s.code| - 1 := i]), {}, {})
  {
    forall j | j in s.pend ensures KeepsJump(s.code, s.code[|s.code| - 1 := i], j) { assert j in All(s) && JumpIn(s, j); }
  }

  // The constant of a descriptor, by its index.
  lemma ConstantIs(k: seq<Value>, env: Env, index: nat, v: Value)
    requires k <= env.k && index < |k| && k[index] == v
    ensures At(env.k, index) == v
  {}

  // discharge2reg on what is not a variable: all but comparisons end up in the register.
  method Discharge2Reg(fs: FuncState, e: ExpDesc, ghost T: seq<nat>, ghost F: seq<nat>, reg: nat, ghost m: Meaning)
    returns (ok: bool, e': ExpDesc)
    requires fs.Valid() && Exp(fs, e, T, F) && Computes(fs, e, T, F, m)
    requires MayWrite(m, reg) && reg < fs.freereg && !e.k.VLocal? && !e.k.VUpval?
    modifies fs`code, fs`jpc, fs`jumps, fs`k, fs`h
    ensures !ok ==> fs.AtLimit()
    ensures ok ==> fs.Valid() && Exp(fs, e', T, F) && Computes(fs, e', T, F, m) && old(fs.k) <= fs.k
    ensures ok ==> Frame(old(fs.View()), fs.View(), {}, {}) && e'.t == e.t && e'.f == e.f
    ensures e.k.VJmp? ==> ok && e' == e && fs.View() == old(fs.View())
    ensures !e.k.VJmp? ==> e'.k.VNonReloc? && e'.info == reg
  {
    hide Means, WF, IsList, TwoLists, Frame;
    ghost var s := fs.View();
    SameFrame(s);
    if e.k.VJmp? {
      return true, e;
    }
    e' := e.(k := VNonReloc, info := reg);
    ok := PutExp(fs, e, T, F, reg, m);
    if ok {
      if fs.k <= m.env.k {
        PutMeans(fs, s, e, T, F, reg, m);
      }
      PutExpOk(fs, s, e, T, F, reg, m);
    }
  }

  lemma PutExpOk(fs: FuncState, s: Code, e: ExpDesc, T: seq<nat>, F: seq<nat>, reg: nat, m: Meaning)
    requires fs.Valid() && Frame(s, fs.View(), {}, {}) && ExpOk(s, fs.k, fs.nactvar, fs.freereg, e, T, F) && reg < fs.freereg
    ensures Exp(fs, e.(k := VNonReloc, info := reg), T, F)
  {
    FrameExp(s, fs.View(), e, T, F);
  }

  method PutExp(fs: FuncState, e: ExpDesc, ghost T: seq<nat>, ghost F: seq<nat>, reg: nat, ghost m: Meaning) returns (ok: bool)
    requires fs.Valid() && Exp(fs, e, T, F) && !e.k.VLocal? && !e.k.VUpval? && !e.k.VJmp? && reg < fs.freereg
    modifies fs`code, fs`jpc, fs`jumps, fs`k, fs`h
    ensures !ok ==> fs.AtLimit()
    ensures ok ==> fs.Valid() && Frame(old(fs.View()), fs.View(), {}, {}) && old(fs.k) <= fs.k
    ensures ok ==> ExpOk(old(fs.View()), fs.k, fs.nactvar, fs.freereg, e, T, F)
    ensures ok && fs.k <= m.env.k ==> Put(fs, old(fs.View()), e, T, F, reg, m)
  {
    hide WF, IsList, TwoLists, Frame;
    SameFrame(fs.View());
    match e.k {
      case VNil =>
        ok := PutNil(fs, e, T, F, reg, m);
      case VTrue =>
        ok := PutPlain(fs, e, T, F, LoadBool(reg, 1, 0), reg, m);
      case VFalse =>
        ok := PutPlain(fs, e, T, F, LoadBool(reg, 0, 0), reg, m);
      case VK =>
        ok := PutConstant(fs, e, T, F, e.info, reg, m);
      case VKInt =>
        ok := PutInt(fs, e, T, F, reg, m);
      case VReloc =>
        PutReloc(fs, e, T, F, reg, m);
        ok := true;
      case VNonReloc =>
        if reg != e.info {
          ok := PutPlain(fs, e, T, F, Move(reg, e.info), reg, m);
        } else {
          InPlace(fs.View(), e, reg, m);
          ok := true;
        }
    }
  }

  lemma InPlace(s: Code, e: ExpDesc, reg: nat, m: Meaning)
    requires e.k.VNonReloc? && e.info == reg
    ensures var o := Out(s, m.env, m.r);
      o == if o.Fall? then Fall(Set(o.r, reg, KindValue(s.code, e, m.env, o.r))) else o
  {
    var o := Out(s, m.env, m.r);
    if o.Fall? { assert Set(o.r, reg, At(o.r, reg)) == o.r; }
  }

  method PutInt(fs: FuncState, e: ExpDesc, ghost T: seq<nat>, ghost F: seq<nat>, reg: nat, ghost m: Meaning) returns (ok: bool)
    requires e.k.VKInt? && fs.Valid() && Exp(fs, e, T, F) && reg < fs.freereg
    modifies fs`code, fs`jpc, fs`jumps, fs`k, fs`h
    ensures !ok ==> fs.AtLimit()
    ensures ok ==> fs.Valid() && Frame(old(fs.View()), fs.View(), {}, {}) && old(fs.k) <= fs.k
    ensures ok && fs.k <= m.env.k ==> Put(fs, old(fs.View()), e, T, F, reg, m)
  {
    hide WF, IsList, TwoLists, Frame, Put;
    var index;
    ok, index := fs.AddK(Int(e.ival));
    if ok {
      ghost var m' := if fs.k <= m.env.k then m else m.(env := m.env.(k := fs.k));
      ConstantIs(fs.k, m'.env, index, Int(e.ival));
      PutWider(fs, e, T, F);
      ok := PutConstant(fs, e, T, F, index, reg, m');
      if ok { PutFacts(fs, old(fs.View()), e, T, F, reg, m'); }
    }
  }

  lemma PutFacts(fs: FuncState, s: Code, e: ExpDesc, T: seq<nat>, F: seq<nat>, reg: nat, m: Meaning)
    requires Put(fs, s, e, T, F, reg, m)
    ensures fs.Valid() && Frame(s, fs.View(), {}, {})
  {}

  lemma PutWider(fs: FuncState, e: ExpDesc, T: seq<nat>, F: seq<nat>)
    requires e.k.VKInt? && ExpOk(fs.View(), [], fs.nactvar, fs.freereg, e, T, F)
    ensures Exp(fs, e, T, F)
  {}

  // ---------------------------------------------------------------------------- exp2reg

  // The state with its lists is ready for loading: the value is in the register, or the
  // last instructions are a comparison, whose jump is now in the list for 'true'.
  ghost predicate Ready(s: Code, e: ExpDesc, T: seq<nat>, F: seq<nat>, reg: nat, m: Meaning) {
    if e.k.VJmp? then
      && |T| > 0 && T[|T| - 1] == e.info && e.info !in F && !HasValue(s.code, e.info) && s.jumps == []
      && Means(s, e, T[..|T| - 1], F, m)
    else e.k.VNonReloc? && e.info == reg && Means(s, e, T, F, m)
  }

  ghost predicate Held(fs: FuncState, e: ExpDesc, T: seq<nat>, F: seq<nat>)
    reads fs
  {
    && IsList(fs.code, e.t, T) && IsList(fs.code, e.f, F) && TwoLists(fs.View(), T, F)
    && (e.k.VJmp? ==> T != [] && fs.jumps == [] && !HasValue(fs.code, T[|T| - 1]))
  }

  lemma RelinkKeeps(s: Code, code': seq<Instr>, xs: seq<nat>)
    requires WF(s) && |code'| == |s.code| && Members(xs) <= s.pend
    requires forall i :: 0 <= i < |code'| && (xs == [] || i != xs[|xs| - 1]) ==> code'[i] == s.code[i]
    requires forall x :: x in xs && x < |code'| ==> code'[x].Jmp?
    ensures Relinked(s, code') && forall j :: HasValue(code', j) <==> HasValue(s.code, j)
    ensures forall j :: HasValue(s.code, j) ==> code'[j - 1] == s.code[j - 1]
    ensures Frame(s, s.(code := code'), Members(xs), Members(xs))
  {
    if xs != [] {
      assert xs[|xs| - 1] in xs && xs[|xs| - 1] in Members(xs) && xs[|xs| - 1] in All(s);
      assert JumpIn(s, xs[|xs| - 1]);
    }
    forall j | j in s.pend ensures j < |s.code| { assert j in All(s) && JumpIn(s, j); }
  }

  lemma RelinkMeans(s: Code, code': seq<Instr>, e: ExpDesc, T: seq<nat>, F: seq<nat>, m: Meaning)
    requires WF(s) && Relinked(s, code') && Means(s, e, T, F, m) && !e.k.VReloc?
    requires forall j :: HasValue(code', j) <==> HasValue(s.code, j)
    requires forall j :: HasValue(s.code, j) ==> code'[j - 1] == s.code[j - 1]
    ensures Means(s.(code := code'), e, T, F, m)
  {
    RelinkOut(s, code', m.env, m.r);
  }

  // The jump of a comparison is put in the list of jumps when true.
  method TakeJump(fs: FuncState, e: ExpDesc, ghost T: seq<nat>, ghost F: seq<nat>, reg: nat, ghost m: Meaning)
    returns (ok: bool, e': ExpDesc, ghost T': seq<nat>)
    requires e.k.VJmp? && fs.Valid() && Exp(fs, e, T, F) && Computes(fs, e, T, F, m)
    modifies fs`code
    ensures !ok ==> fs.AtLimit()
    ensures ok ==> fs.Valid() && e'.k.VJmp? && T' == T + [e.info] && Held(fs, e', T', F)
    ensures ok ==> Frame(old(fs.View()), fs.View(), Own(e, T, F), Members(T') + Members(F))
    ensures ok && fs.k <= m.env.k ==> Ready(fs.View(), e', T', F, reg, m)
  {
    ghost var s := fs.View();
    T' := T + [e.info];
    JumpApart(s, e, T, F);
    var t;
    ok, t := fs.Concat(e.t, e.info, T, [e.info]);
    e' := e.(t := t);
    if ok {
      JumpTaken(fs, s, e, t, T, F, reg, m);
    }
  }

  lemma JumpApart(s: Code, e: ExpDesc, T: seq<nat>, F: seq<nat>)
    requires WF(s) && TwoLists(s, T, F) && e.info !in T && e.info < |s.code| && s.code[e.info] == Jmp(NO_JUMP)
    ensures NoDup(T + [e.info]) && IsList(s.code, e.info, [e.info])
  {
    assert forall i :: 0 <= i < |T| ==> T[i] in T;
  }

  // Only the last jump of the list xs has another offset.
  ghost predicate Linked(s: Code, code': seq<Instr>, xs: seq<nat>) {
    && |code'| == |s.code|
    && (forall i :: 0 <= i < |code'| && (xs == [] || i != xs[|xs| - 1]) ==> code'[i] == s.code[i])
    && forall x :: x in xs && x < |code'| ==> code'[x].Jmp?
  }

  lemma LinkedLists(s: Code, code': seq<Instr>, xs: seq<nat>, head: int, ys: seq<nat>)
    requires Linked(s, code', xs) && IsList(s.code, head, ys) && Members(xs) !! Members(ys)
    ensures IsList(code', head, ys)
  {
    forall x | x in ys && x < |s.code| ensures code'[x] == s.code[x] {
      if xs != [] { assert xs[|xs| - 1] in Members(xs) && x in Members(ys); }
    }
    ListFrame(s.code, code', head, ys);
  }

  lemma LinkedPair(s: Code, code': seq<Instr>, e: ExpDesc, T: seq<nat>, F: seq<nat>)
    requires WF(s) && Linked(s, code', T) && TwoLists(s, T, F) && e.info in s.pend && e.info !in T && e.info !in F
    requires NoDup(T + [e.info])
    ensures TwoLists(s.(code := code'), T + [e.info], F)
  {
    assert Members(T + [e.info]) == Members(T) + {e.info};
  }

  lemma TestJump(s: Code, e: ExpDesc)
    requires EndsTest(s) && s.code[|s.code| - 2].Cmp? && e.info == |s.code| - 1
    ensures s.jumps == [] && e.info in s.pend && !HasValue(s.code, e.info) && e.info >= s.base && |s.code| > s.base
  {}

  lemma JumpTaken(fs: FuncState, s: Code, e: ExpDesc, t: int, T: seq<nat>, F: seq<nat>, reg: nat, m: Meaning)
    requires e.k.VJmp? && WF(s) && ExpOk(s, fs.k, fs.nactvar, fs.freereg, e, T, F) && fs.jpc == NO_JUMP
    requires fs.View() == s.(code := fs.code) && Linked(s, fs.code, T) && IsList(fs.code, t, T + [e.info])
    requires fs.Sizes() && InFrame(s, fs.maxstacksize)
    ensures fs.Valid() && Held(fs, e.(t := t), T + [e.info], F)
    ensures Frame(s, fs.View(), Own(e, T, F), Members(T + [e.info]) + Members(F))
    ensures fs.k <= m.env.k && Means(s, e, T, F, m) ==> Ready(fs.View(), e.(t := t), T + [e.info], F, reg, m)
  {
    var T' := T + [e.info];
    TestJump(s, e);
    RelinkKeeps(s, fs.code, T);
    RelinkOut(s, fs.code, m.env, m.r);
    RelinkedFrame(s, fs.code, fs.maxstacksize);
    JumpApart(s, e, T, F);
    LinkedLists(s, fs.code, T, e.f, F);
    LinkedPair(s, fs.code, e, T, F);
    if fs.k <= m.env.k && Means(s, e, T, F, m) {
      RelinkMeans(s, fs.code, e, T, F, m);
    }
    hide WF, Means, Relinked, IsList, TwoLists, Linked;
    assert Members(T') == Members(T) + {e.info};
    assert T'[..|T|] == T;
    assert IsList(fs.code, NO_JUMP, []) by { EmptyList(fs.code); }
    FrameMore(s, fs.View(), Members(T), Own(e, T, F), Members(T') + Members(F));
  }

  lemma FrameMore(s: Code, s': Code, own: set<nat>, more: set<nat>, more': set<nat>)
    requires Frame(s, s', own, own) && own <= more <= s.pend && more' == more
    ensures Frame(s, s', more, more')
  {}

  // ------------------------------------------------------------- loading from the lists

  lemma PatchLists(code: seq<Instr>, P: set<nat>, xs: seq<nat>, vtarget: int, reg: nat, dtarget: int, head: int, ys: seq<nat>)
    requires IsList(code, head, ys) && Members(xs) !! Members(ys)
    requires forall x :: x in xs ==> x < |code| && code[x].Jmp?
    ensures var code' := PatchAll(code, xs, vtarget, reg, dtarget);
      && IsList(code', head, ys)
      && forall y :: y in ys ==> KeepsJump(code, code', y)
  {
    forall y | y in ys ensures KeepsJump(code, PatchAll(code, xs, vtarget, reg, dtarget), y) {
      var i :| 0 <= i < |ys| && ys[i] == y;
      assert y in Members(ys) && y !in xs by { assert y in xs ==> y in Members(xs); }
      PatchApart(code, xs, vtarget, reg, dtarget, y);
    }
    ListFrame(code, PatchAll(code, xs, vtarget, reg, dtarget), head, ys);
  }

  // patchlistaux on both lists.
  method PatchBoth(fs: FuncState, e: ExpDesc, ghost T: seq<nat>, ghost F: seq<nat>, final: nat, reg: nat, pf: int, pt: int)
    returns (ok: bool)
    requires IsList(fs.code, e.t, T) && IsList(fs.code, e.f, F) && fs.Links()
    requires TwoLists(fs.View(), T, F) && fs.pend !! Members(fs.jumps)
    requires forall x :: x in T ==> 0 <= Landing(fs.code, x, final, pt) <= |fs.code|
    requires forall x :: x in F ==> 0 <= Landing(fs.code, x, final, pf) <= |fs.code|
    modifies fs`code, fs`pend
    ensures !ok ==> fs.AtLimit()
    ensures ok ==> fs.code == PatchAll(PatchAll(old(fs.code), F, final, reg, pf), T, final, reg, pt) && fs.Links()
    ensures fs.pend == old(fs.pend) - Members(F) - Members(T)
  {
    ghost var c := fs.code;
    ListMembers(c, e.t, T);
    ListMembers(c, e.f, F);
    PatchLists(c, fs.pend, F, final, reg, pf, e.t, T);
    PatchLists(c, fs.pend, F, final, reg, pf, fs.jpc, fs.jumps);
    ok := fs.PatchListAux(e.f, final, reg, pf, F);
    fs.pend := fs.pend - Members(F) - Members(T);
    if ok {
      ghost var c1 := fs.code;
      PatchLists(c1, fs.pend, T, final, reg, pt, fs.jpc, fs.jumps);
      ok := fs.PatchListAux(e.t, final, reg, pt, T);
    }
  }

  lemma ListMembers(code: seq<Instr>, head: int, xs: seq<nat>)
    requires IsList(code, head, xs)
    ensures forall x :: x in xs ==> x < |code| && code[x].Jmp?
  {
    forall x | x in xs ensures x < |code| && code[x].Jmp? {
      var i :| 0 <= i < |xs| && xs[i] == x;
    }
  }

  lemma ReadyValues(s: Code, e: ExpDesc, T: seq<nat>, F: seq<nat>, reg: nat, m: Meaning)
    requires WF(s) && TwoLists(s, T, F) && Ready(s, e, T, F, reg, m) && e.k.VNonReloc? && MayWrite(m, reg)
    requires forall x :: x in T || x in F ==> HasValue(s.code, x)
    ensures Loads(LoadedAll(s, T, F, reg), reg, m)
  {
    LoadedAllOut(s, T, F, reg, m.env, m.r);
    ArrivesValues(s, e, T, F, reg, m);
  }

  // Every jump of the lists has a value.
  method LoadValues(fs: FuncState, e: ExpDesc, ghost T: seq<nat>, ghost F: seq<nat>, reg: nat, ghost m: Meaning) returns (ok: bool)
    requires e.k.VNonReloc? && fs.Valid() && Held(fs, e, T, F) && reg < fs.maxstacksize && MayWrite(m, reg)
    requires (forall x :: x in T || x in F ==> HasValue(fs.code, x))
    requires fs.k <= m.env.k ==> Ready(fs.View(), e, T, F, reg, m)
    modifies fs`code, fs`pend, fs`lasttarget
    ensures !ok ==> fs.AtLimit()
    ensures ok ==> fs.Valid() && Frame(old(fs.View()), fs.View(), Members(T) + Members(F), {})
    ensures ok && fs.k <= m.env.k ==> Loads(fs.View(), reg, m)
  {
    hide Shape, Means, IsList, Frame, PatchAll, Loads, Ready, Arrives;
    ghost var s := fs.View();
    LoadedAllOut(s, T, F, reg, m.env, m.r);
    LabelWF(s);
    var final := fs.GetLabel();
    ok := PatchBoth(fs, e, T, F, final, reg, NO_JUMP, NO_JUMP);
    if ok {
      assert fs.View() == LoadedAll(s, T, F, reg);
      if fs.k <= m.env.k { ReadyValues(s, e, T, F, reg, m); }
      assert s.code + [] == s.code;
      BothFrame(s, fs.View(), [], T, F, |s.code|, reg, NO_JUMP, NO_JUMP);
      BothInFrame(s, fs.View(), T, F, |s.code|, reg, NO_JUMP, NO_JUMP, fs.maxstacksize) by { ListJumps(s, T); ListJumps(s, F); }
    }
  }

  // Patching both lists leaves no test of theirs without a register.
  lemma BothInFrame(s: Code, s': Code, T: seq<nat>, F: seq<nat>, final: int, reg: nat, pf: int, pt: int, n: nat)
    requires InFrame(s, n) && reg < n <= NO_REG && s'.jumps == s.jumps && s'.pend == s.pend - Members(F) - Members(T)
    requires s'.code == PatchAll(PatchAll(s.code, F, final, reg, pf), T, final, reg, pt)
    requires forall x :: x in T || x in F ==> x < |s.code|
    ensures InFrame(s', n)
  {
    hide PatchAll;
    var s1 := Patched(s, F, final, reg, pf);
    PatchedFrame(s, s1, F, final, reg, pf, n);
    PatchedFrame(s1, s', T, final, reg, pt, n);
  }

  // Patching both lists leaves other jumps alone.
  lemma BothFrame(s: Code, s': Code, ext: seq<Instr>, T: seq<nat>, F: seq<nat>, final: int, reg: nat, pf: int, pt: int)
    requires WF(s) && TwoLists(s, T, F) && s'.base == s.base && s'.pend == s.pend - Members(T) - Members(F)
    requires s'.code == PatchAll(PatchAll(s.code + ext, F, final, reg, pf), T, final, reg, pt)
    ensures Frame(s, s', Members(T) + Members(F), {})
  {
    var c := s.code + ext;
    var c1 := PatchAll(c, F, final, reg, pf);
    ListJumps(s, T);
    ListJumps(s, F);
    forall j | j in s.pend && j !in Members(T) + Members(F) ensures KeepsJump(s.code, s'.code, j) {
      assert j in All(s) && JumpIn(s, j);
      assert j !in T && j !in F;
      PatchApart(c, F, final, reg, pf, j);
      forall x | x in T ensures c1[x].Jmp? { DischargeFrame(c, F, final, reg, pf, x); }
      PatchApart(c1, T, final, reg, pt, j);
    }
  }

  // The two loads of booleans, which are jump targets.
  method CodeBools(fs: FuncState, reg: nat) returns (ok: bool, pf: nat, pt: nat)
    requires fs.Links() && fs.jumps == []
    modifies fs`code, fs`jpc, fs`jumps, fs`lasttarget
    ensures !ok ==> fs.AtLimit()
    ensures ok ==> fs.code == old(fs.code) + [LoadBool(reg, 0, 1), LoadBool(reg, 1, 0)]
    ensures ok ==> fs.jumps == [] && fs.jpc == NO_JUMP && pf == |old(fs.code)| && pt == pf + 1 && fs.lasttarget == pt
  {
    fs.lasttarget := |fs.code|;
    ok, pf := fs.Emit(LoadBool(reg, 0, 1));
    if !ok {
      return false, pf, 0;
    }
    fs.lasttarget := |fs.code|;
    ok, pt := fs.Emit(LoadBool(reg, 1, 0));
  }

  // A value in the register jumps over the loads that follow.
  method SkipBools(fs: FuncState, skip: bool) returns (ok: bool, fj: int, ghost off: int)
    requires fs.Valid() && (!skip ==> fs.jumps == [])
    modifies fs`code, fs`jpc, fs`jumps, fs`pend
    ensures !ok ==> fs.AtLimit()
    ensures ok ==> fs.View() == Skipping(old(fs.View()), skip, off) && fs.jpc == NO_JUMP && fs.jumps == []
    ensures ok ==> IsList(fs.code, fj, Skips(old(fs.View()), skip))
  {
    ok, fj, off := true, NO_JUMP, 0;
    if skip {
      ok, fj := fs.Jump();
      if ok { off := fs.code[fj].sbx; }
    }
  }

  // Some jump has no value: both booleans are loaded where the jumps will go.
  method AddBools(fs: FuncState, e: ExpDesc, ghost T: seq<nat>, ghost F: seq<nat>, reg: nat) returns (ok: bool, pf: nat, pt: nat, ghost off: int)
    requires fs.Valid() && Held(fs, e, T, F) && reg < fs.maxstacksize && (e.k.VJmp? ==> fs.jumps == [])
    modifies fs`code, fs`jpc, fs`jumps, fs`pend, fs`lasttarget
    ensures !ok ==> fs.AtLimit()
    ensures ok ==> fs.Valid() && fs.View() == ToHere(WithBools(old(fs.View()), !e.k.VJmp?, off, reg).(code := fs.code), Skips(old(fs.View()), !e.k.VJmp?))
    ensures ok ==> fs.code == WithBools(old(fs.View()), !e.k.VJmp?, off, reg).code && pf == |fs.code| - 2 && pt == pf + 1
    ensures ok ==> IsList(fs.code, e.t, T) && IsList(fs.code, e.f, F)
    ensures ok ==> BoolsApart(old(fs.View()), !e.k.VJmp?, off, reg, T, F)
  {
    hide WF, IsList, TwoLists, PatchAll, NoDup;
    ghost var s := fs.View();
    var skip := !e.k.VJmp?;
    var fj;
    pf, pt := 0, 0;
    ok, fj, off := SkipBools(fs, skip);
    if !ok {
      return;
    }
    EmptyList(fs.code);
    ok, pf, pt := CodeBools(fs, reg);
    if !ok {
      return;
    }
    BoolsLists(s, fs.code, skip, off, reg, e, fj, T, F);
    ok := fs.PatchToHere(fj, Skips(s, skip));
  }

  method LoadWithBools(fs: FuncState, e: ExpDesc, ghost T: seq<nat>, ghost F: seq<nat>, reg: nat, ghost m: Meaning) returns (ok: bool)
    requires fs.Valid() && Held(fs, e, T, F) && MayWrite(m, reg) && reg < fs.maxstacksize && (e.k.VNonReloc? || e.k.VJmp?)
    requires fs.k <= m.env.k ==> Ready(fs.View(), e, T, F, reg, m)
    modifies fs`code, fs`jpc, fs`jumps, fs`pend, fs`lasttarget
    ensures !ok ==> fs.AtLimit()
    ensures ok ==> fs.Valid() && Frame(old(fs.View()), fs.View(), Members(T) + Members(F), {})
    ensures ok && fs.k <= m.env.k ==> Loads(fs.View(), reg, m)
  {
    hide WF, Means, IsList, TwoLists, Frame, PatchAll, Loads, Ready, Arrives, NoDup, Exec, Skips, ExpShape;
    ghost var s := fs.View();
    var pf, pt;
    ghost var off;
    ok, pf, pt, off := AddBools(fs, e, T, F, reg);
    if !ok {
      return;
    }
    BoolsHere(s, fs.View(), !e.k.VJmp?, off, reg, T, F);
    ghost var s1 := fs.View();
    var final := fs.GetLabel();
    ok := PatchBoth(fs, e, T, F, final, reg, pf, pt);
    if ok {
      BoolsDone(s, fs.View(), !e.k.VJmp?, off, reg, e, T, F, m);
      BothInFrame(s1, fs.View(), T, F, final, reg, pf, pt, fs.maxstacksize) by { ListJumps(s1, T); ListJumps(s1, F); }
    }
  }

  // The jumps over the booleans are none of the lists.
  ghost predicate BoolsApart(s: Code, skip: bool, off: int, reg: nat, T: seq<nat>, F: seq<nat>) {
    && TwoLists(WithBools(s, skip, off, reg), T, F)
    && Members(T) !! Members(Skips(s, skip)) && Members(F) !! Members(Skips(s, skip))
  }

  // The state after the jumps over the booleans have come to the end.
  ghost predicate BoolsReady(s: Code, s': Code, skip: bool, off: int, reg: nat) {
    var q := WithBools(s, skip, off, reg);
    s' == q.(jumps := Skips(s, skip), pend := q.pend - Members(Skips(s, skip)))
  }

  lemma BoolsHere(s: Code, s': Code, skip: bool, off: int, reg: nat, T: seq<nat>, F: seq<nat>)
    requires WF(s) && TwoLists(s, T, F) && WF(s') && reg != NO_REG && (!skip ==> s.jumps == [])
    requires var q := WithBools(s, skip, off, reg); s' == ToHere(q, Skips(s, skip)) && q.jumps == []
    requires BoolsApart(s, skip, off, reg, T, F)
    ensures BoolsReady(s, s', skip, off, reg) && TwoLists(s', T, F) && s'.pend !! Members(s'.jumps) && s'.last == |s'.code|
    ensures WF(s'.(last := |s'.code|))
  {
    assert [] + Skips(s, skip) == Skips(s, skip);
    LabelWF(s');
  }

  lemma BoolsDone(s: Code, s': Code, skip: bool, off: int, reg: nat, e: ExpDesc, T: seq<nat>, F: seq<nat>, m: Meaning)
    requires WF(s) && TwoLists(s, T, F) && MayWrite(m, reg) && (!skip ==> s.jumps == []) && skip == !e.k.VJmp?
    requires var q := WithBools(s, skip, off, reg);
      var n := |q.code|;
      && s'.code == PatchAll(PatchAll(q.code, F, n, reg, n - 2), T, n, reg, n - 1) && s'.base == s.base
      && s'.jumps == Skips(s, skip) && s'.pend == q.pend - Members(Skips(s, skip)) - Members(F) - Members(T) && s'.last == n
    requires e.k.VJmp? ==> T != []
    ensures WF(s') && Frame(s, s', Members(T) + Members(F), {})
    ensures Ready(s, e, T, F, reg, m) && (e.k.VNonReloc? || e.k.VJmp?) ==> Loads(s', reg, m)
  {
    hide WF, TwoLists, PatchAll, Means, Loads, Ready, Frame, Out;
    LoadedBoolsOut(s, skip, off, T, F, reg, m.env, m.r);
    var q := WithBools(s, skip, off, reg);
    var n := |q.code|;
    assert s' == LoadedBools(s, skip, off, T, F, reg) by {
      assert q.pend - Members(Skips(s, skip)) - Members(F) - Members(T) == q.pend - Members(F) - Members(T) - Members(Skips(s, skip));
    }
    var ext := (if skip then [Jmp(off)] else []) + [LoadBool(reg, 0, 1), LoadBool(reg, 1, 0)];
    assert q.code == s.code + ext;
    SkipsNew(s, skip);
    assert s'.pend == s.pend - Members(T) - Members(F);
    BothFrame(s, s', ext, T, F, n, reg, n - 2, n - 1);
    if Ready(s, e, T, F, reg, m) && (e.k.VNonReloc? || e.k.VJmp?) { ReadyBools(s, skip, off, reg, e, T, F, m); }
  }

  lemma SkipsNew(s: Code, skip: bool)
    requires WF(s)
    ensures s.pend !! Members(Skips(s, skip))
  {
    forall j | j in s.pend ensures j < |s.code| { assert j in All(s) && JumpIn(s, j); }
    forall j | j in s.pend ensures j !in s.jumps { assert j in s.jumps ==> j in Members(s.jumps); }
  }

  lemma ReadyBools(s: Code, skip: bool, off: int, reg: nat, e: ExpDesc, T: seq<nat>, F: seq<nat>, m: Meaning)
    requires WF(s) && TwoLists(s, T, F) && MayWrite(m, reg) && (!skip ==> s.jumps == []) && skip == !e.k.VJmp?
    requires Ready(s, e, T, F, reg, m) && (e.k.VNonReloc? || e.k.VJmp?)
    ensures Loads(LoadedBools(s, skip, off, T, F, reg), reg, m)
  {
    LoadedBoolsOut(s, skip, off, T, F, reg, m.env, m.r);
    if skip {
      ArrivesBools(s, e, T, F, reg, m);
    } else {
      var T0 := T[..|T| - 1];
      assert T == T0 + [e.info];
      assert Members(T0) !! Members(F) by { assert forall x :: x in Members(T0) ==> x in T && x in Members(T); }
      ArrivesTest(s, e, T0, F, reg, m);
    }
  }

  lemma BoolsLists(s: Code, code: seq<Instr>, skip: bool, off: int, reg: nat, e: ExpDesc, fj: int, T: seq<nat>, F: seq<nat>)
    requires WF(s) && TwoLists(s, T, F) && reg != NO_REG && (!skip ==> s.jumps == [])
    requires IsList(s.code, e.t, T) && IsList(s.code, e.f, F) && IsList(Skipping(s, skip, off).code, fj, Skips(s, skip))
    requires code == WithBools(s, skip, off, reg).code
    ensures IsList(code, e.t, T) && IsList(code, e.f, F) && IsList(code, fj, Skips(s, skip)) && IsList(code, NO_JUMP, [])
    ensures WF(WithBools(s, skip, off, reg)) && NoDup(Skips(s, skip)) && Members(Skips(s, skip)) <= WithBools(s, skip, off, reg).pend
    ensures BoolsApart(s, skip, off, reg, T, F)
  {
    WithBoolsOut(s, skip, off, reg, Env([], []), []);
    SkipsPending(s, skip, off, T, F, reg);
    ListFrame(s.code, code, e.t, T);
    ListFrame(s.code, code, e.f, F);
    ListFrame(Skipping(s, skip, off).code, code, fj, Skips(s, skip));
  }

  lemma NoJumps(s: Code, e: ExpDesc, T: seq<nat>, F: seq<nat>)
    requires IsList(s.code, e.t, T) && IsList(s.code, e.f, F) && TwoLists(s, T, F) && !HasJumps(e)
    ensures T == [] && F == [] && e.t == NO_JUMP && e.f == NO_JUMP
  {
    if T != [] && F != [] { FirstsDiffer(T, F); }
  }

  lemma FirstsDiffer(T: seq<nat>, F: seq<nat>)
    requires T != [] && F != [] && Members(T) !! Members(F)
    ensures T[0] != F[0]
  {
    assert T[0] in Members(T) && F[0] in Members(F);
  }

  lemma LoadedHere(s: Code, e: ExpDesc, reg: nat, m: Meaning)
    requires e.k.VNonReloc? && e.info == reg && Means(s, e, [], [], m)
    ensures Loads(s, reg, m)
  {}

  lemma FrameChain(s: Code, s': Code, s'': Code, own: set<nat>, own': set<nat>)
    requires Frame(s, s', {}, {}) && Frame(s', s'', own, own') && own <= s.pend
    ensures Frame(s, s'', own, own')
  {
    FrameAll(s, s', own);
    FrameTrans(s, s', s'', own, own, own');
  }

  // Loads the value, given the lists.
  method LoadLists(fs: FuncState, e: ExpDesc, ghost T: seq<nat>, ghost F: seq<nat>, reg: nat, ghost m: Meaning) returns (ok: bool)
    requires fs.Valid() && Held(fs, e, T, F) && MayWrite(m, reg) && reg < fs.maxstacksize && (e.k.VNonReloc? || e.k.VJmp?)
    requires fs.k <= m.env.k ==> Ready(fs.View(), e, T, F, reg, m)
    modifies fs`code, fs`jpc, fs`jumps, fs`pend, fs`lasttarget
    ensures !ok ==> fs.AtLimit()
    ensures ok ==> fs.Valid() && Frame(old(fs.View()), fs.View(), Members(T) + Members(F), {})
    ensures ok && fs.k <= m.env.k ==> Loads(fs.View(), reg, m)
  {
    hide WF, Means, IsList, Frame, Loads, Arrives, NoDup;
    ok := true;
    if HasJumps(e) {
      assert e.k.VJmp? ==> T[|T| - 1] in T;
      var needT := fs.NeedValue(e.t, T);
      var needF := fs.NeedValue(e.f, F);
      if needT || needF {
        ok := LoadWithBools(fs, e, T, F, reg, m);
      } else {
        ok := LoadValues(fs, e, T, F, reg, m);
      }
    } else {
      NoJumps(fs.View(), e, T, F);
      SameFrame(fs.View());
      if fs.k <= m.env.k { LoadedHere(fs.View(), e, reg, m); }
      assert Members([]) + Members([]) == {};
    }
  }

  // exp2reg.
  method Exp2Reg(fs: FuncState, e: ExpDesc, ghost T: seq<nat>, ghost F: seq<nat>, reg: nat, ghost m: Meaning) returns (ok: bool)
    requires fs.Valid() && Exp(fs, e, T, F) && Computes(fs, e, T, F, m)
    requires MayWrite(m, reg) && reg < fs.freereg && !e.k.VLocal? && !e.k.VUpval?
    modifies fs`code, fs`jpc, fs`jumps, fs`pend, fs`lasttarget, fs`k, fs`h
    ensures !ok ==> fs.AtLimit()
    ensures ok ==> fs.Valid() && old(fs.k) <= fs.k
    ensures ok ==> Frame(old(fs.View()), fs.View(), Own(e, T, F), {})
    ensures ok && fs.k <= m.env.k ==> Loads(fs.View(), reg, m)
  {
    hide WF, Means, IsList, Frame, Loads, Arrives, NoDup, TwoLists;
    ghost var s := fs.View();
    var e1;
    ok, e1 := Discharge2Reg(fs, e, T, F, reg, m);
    if !ok {
      return;
    }
    ghost var s1 := fs.View();
    ghost var T' := T;
    if e1.k.VJmp? {
      ok, e1, T' := TakeJump(fs, e1, T, F, reg, m);
      if !ok {
        return;
      }
      FrameChainAgain(s, s1, fs.View(), e, T, F, Members(T') + Members(F));
    } else {
      Settled(fs, s, e, e1, T, F, reg, m);
    }
    ghost var s2 := fs.View();
    ok := LoadLists(fs, e1, T', F, reg, m);
    if ok {
      FrameTrans(s, s2, fs.View(), Own(e, T, F), Members(T') + Members(F), {});
    }
  }

  lemma OwnPending(s: Code, k: seq<Value>, nactvar: nat, freereg: nat, e: ExpDesc, T: seq<nat>, F: seq<nat>)
    requires ExpOk(s, k, nactvar, freereg, e, T, F)
    ensures Own(e, T, F) <= s.pend
  {}

  lemma FrameChainAgain(s: Code, s1: Code, s2: Code, e: ExpDesc, T: seq<nat>, F: seq<nat>, own': set<nat>)
    requires Frame(s, s1, {}, {}) && Frame(s1, s2, Own(e, T, F), own') && Own(e, T, F) <= s.pend
    ensures Frame(s, s2, Own(e, T, F), own')
  {
    FrameChain(s, s1, s2, Own(e, T, F), own');
  }

  lemma Settled(fs: FuncState, s: Code, e: ExpDesc, e1: ExpDesc, T: seq<nat>, F: seq<nat>, reg: nat, m: Meaning)
    requires fs.Valid() && Exp(fs, e1, T, F) && Computes(fs, e1, T, F, m) && e1.k.VNonReloc? && e1.info == reg
    requires Frame(s, fs.View(), {}, {}) && !e.k.VJmp?
    ensures Held(fs, e1, T, F) && Frame(s, fs.View(), Own(e, T, F), Members(T) + Members(F))
    ensures fs.k <= m.env.k ==> Ready(fs.View(), e1, T, F, reg, m)
  {
    assert s.pend == fs.pend;
    FrameAll(s, fs.View(), Members(T) + Members(F));
  }

  // ------------------------------------------------------------ registers for values

  function InReg(reg: nat): ExpDesc {
    ExpDesc(VNonReloc, reg, 0, NO_JUMP, NO_JUMP)
  }

  // A register that is held for a value is the last one.
  predicate OnTop(fs: FuncState, e: ExpDesc)
    reads fs
  {
    e.k.VNonReloc? && e.info >= fs.nactvar ==> e.info + 1 == fs.freereg
  }

  // The first register that is free once the one of the expression is.
  function Top(fs: FuncState, e: ExpDesc): nat
    reads fs
  {
    if e.k.VNonReloc? && e.info >= fs.nactvar then e.info else fs.freereg
  }

  method FreeExp(fs: FuncState, e: ExpDesc)
    requires fs.Valid() && OnTop(fs, e) && (e.k.VNonReloc? ==> e.info < fs.freereg)
    modifies fs`freereg
    ensures fs.Valid() && fs.freereg == old(Top(fs, e))
  {
    if e.k.VNonReloc? {
      fs.FreeReg(e.info);
    }
  }

  lemma StillExp(s: Code, k: seq<Value>, nactvar: nat, freereg: nat, freereg': nat, e: ExpDesc, T: seq<nat>, F: seq<nat>)
    requires ExpOk(s, k, nactvar, freereg, e, T, F) && (e.k.VNonReloc? ==> e.info < freereg')
    ensures ExpOk(s, k, nactvar, freereg', e, T, F)
  {}

  method Exp2NextReg(fs: FuncState, e: ExpDesc, ghost T: seq<nat>, ghost F: seq<nat>, ghost m: Meaning) returns (ok: bool, reg: nat)
    requires fs.Valid() && Exp(fs, e, T, F) && Computes(fs, e, T, F, m) && OnTop(fs, e) && m.lo <= Top(fs, e)
    modifies fs`code, fs`jpc, fs`jumps, fs`pend, fs`lasttarget, fs`k, fs`h, fs`freereg, fs`maxstacksize
    ensures !ok ==> fs.AtLimit()
    ensures ok ==> fs.Valid() && old(fs.k) <= fs.k && reg == old(Top(fs, e)) && fs.freereg == reg + 1
    ensures ok ==> Frame(old(fs.View()), fs.View(), Own(e, T, F), {})
    ensures ok && fs.k <= m.env.k ==> Loads(fs.View(), reg, m)
  {
    hide WF, Means, IsList, Frame, Loads, Arrives, NoDup, TwoLists;
    ghost var s := fs.View();
    var e1;
    reg := fs.freereg;
    OwnPending(s, fs.k, fs.nactvar, fs.freereg, e, T, F);
    ok, e1 := DischargeVars(fs, e, T, F, m);
    if !ok {
      return;
    }
    ghost var s1 := fs.View();
    FreeExp(fs, e1);
    ok := fs.ReserveRegs(1);
    if !ok {
      return;
    }
    reg := fs.freereg - 1;
    StillExp(s1, fs.k, fs.nactvar, old(fs.freereg), fs.freereg, e1, T, F);
    ok := Exp2Reg(fs, e1, T, F, reg, m);
    if ok {
      OwnSame(e, e1, T, F);
      FrameChainAgain(s, s1, fs.View(), e, T, F, {});
    }
  }

  lemma OwnSame(e: ExpDesc, e1: ExpDesc, T: seq<nat>, F: seq<nat>)
    requires e1.k.VJmp? <==> e.k.VJmp?
    requires e.k.VJmp? ==> e1 == e
    ensures Own(e1, T, F) == Own(e, T, F)
  {}

  // The expression holds register 'top', or none.
  ghost predicate Held1(fs: FuncState, e: ExpDesc, top: nat)
    reads fs
  {
    && e.t == NO_JUMP && e.f == NO_JUMP
    && if e.k.VNonReloc? && e.info >= fs.nactvar then e.info == top && fs.freereg == top + 1 else fs.freereg == top
  }

  lemma HeldExp(fs: FuncState, s: Code, e: ExpDesc, m: Meaning)
    requires fs.Valid() && e.k.VNonReloc? && e.info < fs.freereg && e.t == NO_JUMP && e.f == NO_JUMP && Proper(m)
    ensures Exp(fs, e, [], []) && (Loads(fs.View(), e.info, m) ==> Means(fs.View(), e, [], [], m))
  {}

  method Exp2AnyReg(fs: FuncState, e: ExpDesc, ghost T: seq<nat>, ghost F: seq<nat>, ghost m: Meaning) returns (ok: bool, e': ExpDesc)
    requires fs.Valid() && Exp(fs, e, T, F) && Computes(fs, e, T, F, m) && OnTop(fs, e) && m.lo <= Top(fs, e) && Proper(m)
    modifies fs`code, fs`jpc, fs`jumps, fs`pend, fs`lasttarget, fs`k, fs`h, fs`freereg, fs`maxstacksize
    ensures !ok ==> fs.AtLimit()
    ensures ok ==> fs.Valid() && old(fs.k) <= fs.k && e'.k.VNonReloc? && Held1(fs, e', old(Top(fs, e)))
    ensures ok ==> Frame(old(fs.View()), fs.View(), Own(e, T, F), {})
    ensures ok ==> Exp(fs, e', [], []) && Computes(fs, e', [], [], m)
    ensures e.k.VNonReloc? && !HasJumps(e) ==> ok && e' == e && fs.View() == old(fs.View()) && fs.freereg == old(fs.freereg)
  {
    hide WF, Means, IsList, Frame, Loads, Arrives, NoDup, TwoLists, Proper;
    ghost var s := fs.View();
    OwnPending(s, fs.k, fs.nactvar, fs.freereg, e, T, F);
    ok, e' := DischargeVars(fs, e, T, F, m);
    if !ok {
      return;
    }
    ghost var s1 := fs.View();
    OwnSame(e, e', T, F);
    if e'.k.VNonReloc? {
      if !HasJumps(e') {
        NoJumps(s1, e', T, F);
        FrameNone(s, s1, e', T, F);
        return;
      }
      if e'.info >= fs.nactvar {
        ok := Exp2Reg(fs, e', T, F, e'.info, m);
        if ok {
          e' := InReg(e'.info);
          HeldExp(fs, fs.View(), e', m);
          FrameChainAgain(s, s1, fs.View(), e, T, F, {});
        }
        return;
      }
    }
    var reg;
    ok, reg := Exp2NextReg(fs, e', T, F, m);
    if ok {
      e' := InReg(reg);
      HeldExp(fs, fs.View(), e', m);
      FrameChainAgain(s, s1, fs.View(), e, T, F, {});
    }
  }

  lemma FrameNone(s: Code, s1: Code, e: ExpDesc, T: seq<nat>, F: seq<nat>)
    requires Frame(s, s1, {}, {}) && T == [] && F == [] && !e.k.VJmp?
    ensures Frame(s, s1, Own(e, T, F), {})
  {
    assert Own(e, T, F) == {};
  }

  method Exp2Val(fs: FuncState, e: ExpDesc, ghost T: seq<nat>, ghost F: seq<nat>, ghost m: Meaning) returns (ok: bool, e': ExpDesc)
    requires fs.Valid() && Exp(fs, e, T, F) && Computes(fs, e, T, F, m) && OnTop(fs, e) && m.lo <= Top(fs, e) && Proper(m)
    modifies fs`code, fs`jpc, fs`jumps, fs`pend, fs`lasttarget, fs`k, fs`h, fs`freereg, fs`maxstacksize
    ensures !ok ==> fs.AtLimit()
    ensures ok ==> fs.Valid() && old(fs.k) <= fs.k && Held1(fs, e', old(Top(fs, e))) && !e'.k.VLocal? && !e'.k.VUpval?
    ensures ok ==> Frame(old(fs.View()), fs.View(), Own(e, T, F), Own(e', [], []))
    ensures ok ==> Exp(fs, e', [], []) && Computes(fs, e', [], [], m)
    ensures (e.k.VNonReloc? || e.k.VK?) && !HasJumps(e) ==> ok && e' == e && fs.View() == old(fs.View()) && fs.freereg == old(fs.freereg)
  {
    hide WF, Means, IsList, Frame, NoDup, TwoLists, Proper;
    ghost var s := fs.View();
    if HasJumps(e) {
      ok, e' := Exp2AnyReg(fs, e, T, F, m);
      if ok { OwnNone(e'); }
    } else {
      NoJumps(s, e, T, F);
      OwnPending(s, fs.k, fs.nactvar, fs.freereg, e, T, F);
      ok, e' := DischargeVars(fs, e, T, F, m);
      if ok {
        OwnSame(e, e', T, F);
        FrameAll(s, fs.View(), Own(e, T, F));
      }
    }
  }

  lemma OwnNone(e: ExpDesc)
    requires !e.k.VJmp?
    ensures Own(e, [], []) == {}
  {}

  // -------------------------------------------------------------- operands of comparisons

  // The operand x, a register or a constant, has the value.
  ghost predicate Operand(s: Code, x: nat, m: Meaning) {
    var o := Out(s, m.env, m.r);
    if !m.o0.Fall? then o == m.o0
    else match m.v
      case None => o == Fault
      case Some(v) => o.Fall? && Same(m, o.r) && RK(m.env, o.r, x) == v
  }

  // Operand x of an instruction, or none.
  ghost predicate IsRK(e: ExpDesc, x: nat) {
    (e.k.VK? && e.info <= MAXINDEXRK && x == BITRK + e.info) || (e.k.VNonReloc? && x == e.info < BITRK)
  }

  lemma OperandMeans(s: Code, e: ExpDesc, x: nat, m: Meaning)
    requires Means(s, e, [], [], m) && IsRK(e, x)
    ensures Operand(s, x, m)
  {}

  // The constant that a descriptor without jumps stands for.
  lemma ConstantMeans(fs: FuncState, e: ExpDesc, index: nat, v: Value, m: Meaning)
    requires fs.Valid() && Exp(fs, e, [], []) && Means(fs.View(), e, [], [], m) && index < |fs.k| && fs.k <= m.env.k && fs.k[index] == v
    requires e.k.VNil? || e.k.VTrue? || e.k.VFalse? || e.k.VKInt?
    requires v == KindValue(fs.code, e, m.env, [])
    ensures Means(fs.View(), e.(k := VK, info := index), [], [], m)
  {
    Redescribe(fs.View(), e, [], [], m, fs.View(), e.(k := VK, info := index));
  }

  // Nothing is left to do for an operand.
  predicate IsOperand(e: ExpDesc) {
    !HasJumps(e) && (e.k.VNonReloc? || (e.k.VK? && e.info <= MAXINDEXRK))
  }

  // A constant gets an index.
  method ConstantExp(fs: FuncState, e: ExpDesc, v: Value, ghost m: Meaning) returns (ok: bool, e': ExpDesc)
    requires fs.Valid() && Exp(fs, e, [], []) && Computes(fs, e, [], [], m) && Held1(fs, e, fs.freereg)
    requires e.k.VNil? || e.k.VTrue? || e.k.VFalse? || e.k.VKInt?
    requires v == KindValue(fs.code, e, m.env, [])
    modifies fs`k, fs`h
    ensures !ok ==> fs.AtLimit()
    ensures ok ==> fs.Valid() && old(fs.k) <= fs.k && |fs.k| <= |old(fs.k)| + 1 && e'.k.VK? && e'.info < |fs.k|
    ensures ok ==> Exp(fs, e', [], []) && Computes(fs, e', [], [], m) && Held1(fs, e', fs.freereg)
  {
    hide Means;
    var index;
    ok, index := fs.AddK(v);
    e' := e.(k := VK, info := index);
    if ok && fs.k <= m.env.k {
      ConstantMeans(fs, e, index, v, m);
    }
  }

  // luaK_exp2RK: the value in a register, or as a constant whose index fits the operand.
  method Exp2RK(fs: FuncState, e: ExpDesc, ghost T: seq<nat>, ghost F: seq<nat>, ghost m: Meaning) returns (ok: bool, e': ExpDesc, x: nat)
    requires fs.Valid() && Exp(fs, e, T, F) && Computes(fs, e, T, F, m) && OnTop(fs, e) && m.lo <= Top(fs, e) && Proper(m)
    modifies fs`code, fs`jpc, fs`jumps, fs`pend, fs`lasttarget, fs`k, fs`h, fs`freereg, fs`maxstacksize
    ensures !ok ==> fs.AtLimit()
    ensures ok ==> fs.Valid() && old(fs.k) <= fs.k && IsRK(e', x) && Held1(fs, e', old(Top(fs, e)))
    ensures ok ==> Frame(old(fs.View()), fs.View(), Own(e, T, F), {}) && Exp(fs, e', [], [])
    ensures ok ==> Computes(fs, e', [], [], m)
    ensures IsOperand(e) ==> ok && e' == e && fs.View() == old(fs.View()) && fs.freereg == old(fs.freereg)
  {
    hide InFrame, WF, Means, IsList, Frame, NoDup, TwoLists, Proper;
    ghost var s := fs.View();
    OwnPending(s, fs.k, fs.nactvar, fs.freereg, e, T, F);
    x := 0;
    ok, e' := Exp2Val(fs, e, T, F, m);
    if !ok {
      return;
    }
    ghost var s1 := fs.View();
    OwnNone2(s1, e');
    match e'.k {
      case VNil | VTrue | VFalse =>
        if |fs.k| <= MAXINDEXRK {
          ok, e' := ConstantExp(fs, e', if e'.k.VNil? then Nil else Bool(e'.k.VTrue?), m);
          x := BITRK + e'.info;
          return;
        }
      case VKInt =>
        ok, e' := ConstantExp(fs, e', Int(e'.ival), m);
        if !ok {
          return;
        }
      case _ =>
    }
    if e'.k.VK? && e'.info <= MAXINDEXRK {
      x := BITRK + e'.info;
      return;
    }
    // anything else goes to a register
    ghost var e1 := e';
    ok, e' := Exp2AnyReg(fs, e', [], [], m);
    x := e'.info;
    if ok {
      FrameTrans(s, s1, fs.View(), Own(e, T, F), Own(e1, [], []), {});
    }
  }

  lemma OwnNone2(s: Code, e: ExpDesc)
    ensures !e.k.VJmp? ==> Own(e, [], []) == {}
  {}
}
