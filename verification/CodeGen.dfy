// The state of the code generator, its jump lists, and the emission of instructions.

module CodeGen {
  import opened Common
  import opened LuaVM
  import opened JumpCode
  import opened CodeState
  import opened FrameSize

  const MAXREGS: nat := 255
  const MAXARG_sBx: nat := 131071
  const MAXARG_Bx: nat := 262143
  const MAXARG_Ax: nat := 67108863
  const MAXINDEXRK: nat := 255
  const MAX_INT: nat := 0x7fff_ffff

  // ---------------------------------------------------------------------- jump lists

  // The next jump of a list, threaded through the offsets of the jumps.
  function GetJump(code: seq<Instr>, pc: nat): int
    requires pc < |code| && code[pc].Jmp?
  {
    if code[pc].sbx == NO_JUMP then NO_JUMP else pc + 1 + code[pc].sbx
  }

  // Element i of a list, or the end mark.
  function Link(xs: seq<nat>, i: nat): int {
    if i < |xs| then xs[i] else NO_JUMP
  }

  // The list that begins at 'head' has the jumps xs, in this order.
  ghost predicate IsList(code: seq<Instr>, head: int, xs: seq<nat>) {
    && head == Link(xs, 0)
    && forall i :: 0 <= i < |xs| ==> xs[i] < |code| && code[xs[i]].Jmp? && GetJump(code, xs[i]) == Link(xs, i + 1)
  }

  lemma ListTail(code: seq<Instr>, head: int, xs: seq<nat>)
    requires IsList(code, head, xs) && (head != NO_JUMP || xs != [])
    ensures xs != [] && head == xs[0] && head < |code| && code[head].Jmp? && IsList(code, GetJump(code, head), xs[1..])
  {
    assert head == xs[0];
    forall i | 0 <= i < |xs| - 1
      ensures xs[1..][i] < |code| && code[xs[1..][i]].Jmp? && GetJump(code, xs[1..][i]) == Link(xs[1..], i + 1)
    {
      assert xs[1..][i] == xs[i + 1] && GetJump(code, xs[i + 1]) == Link(xs, i + 2);
    }
  }

  lemma ListEnd(code: seq<Instr>, xs: seq<nat>)
    requires IsList(code, NO_JUMP, xs)
    ensures xs == []
  {}

  // A list is not affected by changes elsewhere.
  lemma ListFrame(code: seq<Instr>, code': seq<Instr>, head: int, xs: seq<nat>)
    requires IsList(code, head, xs)
    requires forall x :: x in xs && x < |code| ==> x < |code'| && code'[x] == code[x]
    ensures IsList(code', head, xs)
  {
    forall i | 0 <= i < |xs| ensures code'[xs[i]] == code[xs[i]] { assert xs[i] in xs; }
  }

  lemma EmptyList(code: seq<Instr>)
    ensures IsList(code, NO_JUMP, []) && NoDup<nat>([])
  {}

  class FuncState {
    var code: seq<Instr>        // fs->f->code, up to fs->pc
    var jpc: int  // the head of the list of jumps that wait for the next instruction
    var lasttarget: nat
    var freereg: nat
    var nactvar: nat  // how many locals are active
    var maxstacksize: nat
    var k: seq<Value>           // constants
    var h: map<Value, int>      // the scanner's table, with positions of constants
    // the jumps of 'jpc', the other pending jumps, and where runs start
    ghost var jumps: seq<nat>
    ghost var pend: set<nat>
    ghost const base: nat

    // open_func: registers 0 and 1 are always valid.
    constructor ()
      ensures Valid() && View() == Code([], [], {}, 0, 0) && jpc == NO_JUMP && freereg == 0 && nactvar == 0 && k == []
    {
      code, jpc, lasttarget, freereg, nactvar, maxstacksize, k, h := [], NO_JUMP, 0, 0, 0, 2, [], map[];
      jumps, pend, base := [], {}, 0;
    }

    ghost function View(): (s: Code)
      reads this
    {
      Code(code, jumps, pend, base, lasttarget)
    }

    ghost predicate Links()
      reads this
    {
      IsList(code, jpc, jumps) && NoDup(jumps)
    }

    ghost predicate Sound()
      reads this
    {
      WF(View()) && Links() && Sizes() && InFrame(View(), maxstacksize)
    }

    // The registers in use are in the stack frame of the function.
    ghost predicate Sizes()
      reads this
    {
      nactvar <= freereg <= maxstacksize < MAXREGS && 2 <= maxstacksize
    }

    // The instruction before 'base' is not one that LOADNIL may be merged into.
    ghost predicate Valid()
      reads this
    {
      Sound() && (|code| == base > lasttarget ==> !code[base - 1].LoadNil?)
    }

    // Why code generation may fail: a jump would be too long, or there are no more
    // registers or constants.
    ghost predicate AtLimit()
      reads this
    {
      |code| > MAXARG_sBx || freereg + 1 >= MAXREGS || |k| >= MAXARG_Ax
    }

    // fixjump; fails if the jump is too long.
    method FixJump(pc: nat, dest: nat) returns (ok: bool)
      requires pc < |code| && code[pc].Jmp?
      modifies `code
      ensures !ok ==> 0 <= dest <= |code| ==> AtLimit()
      ensures ok ==> code == old(code)[pc := Jmp(dest - (pc + 1))]
      ensures !ok ==> code == old(code)
    {
      var offset := dest - (pc + 1);
      if (if offset < 0 then -offset else offset) > MAXARG_sBx {
        return false;  // control structure too long
      }
      code := code[pc := Jmp(offset)];
      ok := true;
    }

    // Does the list have a jump that does not produce a value?
    method NeedValue(list: int, ghost xs: seq<nat>) returns (need: bool)
      requires IsList(code, list, xs)
      ensures need <==> exists x :: x in xs && !HasValue(code, x)
    {
      hide IsList;
      var l := list;
      ghost var i := 0;
      while l != NO_JUMP
        invariant i <= |xs| && IsList(code, l, xs[i..]) && forall x :: x in xs[..i] ==> HasValue(code, x)
        decreases |xs| - i
      {
        ListTail(code, l, xs[i..]);
        if !(l >= 1 && code[l - 1].TestSet?) {
          assert xs[i] == l && l in xs;
          return true;
        }
        assert xs[..i + 1] == xs[..i] + [xs[i]];
        assert xs[i..][1..] == xs[i + 1..];
        l := GetJump(code, l);
        i := i + 1;
      }
      ListEnd(code, xs[i..]);
      assert xs[..i] == xs;
      return false;
    }

    method PatchTestReg(node: nat, reg: nat) returns (b: bool)
      requires node < |code|
      modifies `code
      ensures code == PatchReg(old(code), node, reg) && (b <==> HasValue(old(code), node))
    {
      if node >= 1 && code[node - 1].TestSet? {
        var i := code[node - 1];
        if reg != NO_REG && reg != i.b {
          code := code[node - 1 := TestSet(reg, i.b, i.c)];
        } else {  // the value is not wanted, or is there already
          code := code[node - 1 := Test(i.b, i.c)];
        }
        b := true;
      } else {
        b := false;
      }
    }

    // The jump that is first in the list gets its target.
    method PatchFirst(l: int, vtarget: int, reg: nat, dtarget: int, ghost xs: seq<nat>) returns (ok: bool, next: int)
      requires l != NO_JUMP && xs != [] && IsList(code, l, xs) && NoDup(xs) && 0 <= Landing(code, xs[0], vtarget, dtarget) <= |code|
      modifies `code
      ensures !ok ==> AtLimit()
      ensures ok ==> code == PatchJump(old(code), xs[0], vtarget, reg, dtarget) && IsList(code, next, xs[1..])
    {
      hide IsList, NoDup;
      ListTail(code, l, xs);
      next := GetJump(code, l);
      ghost var before := code;
      var b := PatchTestReg(l, reg);
      ok := FixJump(l, if b then vtarget else dtarget);
      if ok {
        PatchKeepsTail(before, xs, vtarget, reg, dtarget, next);
      }
    }

    lemma PatchKeepsTail(c: seq<Instr>, xs: seq<nat>, vtarget: int, reg: nat, dtarget: int, next: int)
      requires xs != [] && NoDup(xs) && IsList(c, xs[0], xs) && IsList(c, next, xs[1..])
      ensures IsList(PatchJump(c, xs[0], vtarget, reg, dtarget), next, xs[1..])
      ensures NoDup(xs[1..]) && xs[0] in xs && forall x :: x in xs[1..] ==>
                x in xs && (HasValue(PatchJump(c, xs[0], vtarget, reg, dtarget), x) <==> HasValue(c, x))
    {
      hide IsList, NoDup;
      var c' := PatchJump(c, xs[0], vtarget, reg, dtarget);
      TailJumps(c, xs[0], xs);
      ListFrame(c, c', next, xs[1..]);
    }

    lemma TailJumps(c: seq<Instr>, head: int, xs: seq<nat>)
      requires xs != [] && NoDup(xs) && IsList(c, head, xs)
      ensures NoDup(xs[1..]) && xs[0] in xs && head == xs[0] && xs[0] < |c| && c[xs[0]].Jmp?
      ensures forall x :: x in xs[1..] ==> x in xs && x != xs[0] && x < |c| && c[x].Jmp?
    {
      forall x | x in xs[1..] ensures x in xs && x != xs[0] && x < |c| && c[x].Jmp? {
        var i :| 0 <= i < |xs| - 1 && xs[1..][i] == x;
        assert xs[i + 1] == x;
      }
    }

    method PatchListAux(list: int, vtarget: int, reg: nat, dtarget: int, ghost xs: seq<nat>) returns (ok: bool)
      requires IsList(code, list, xs) && NoDup(xs) && forall x :: x in xs ==> 0 <= Landing(code, x, vtarget, dtarget) <= |code|
      modifies `code
      ensures !ok ==> AtLimit()
      ensures ok ==> code == PatchAll(old(code), xs, vtarget, reg, dtarget)
    {
      hide IsList, NoDup, PatchJump;
      var l := list;
      ghost var ys := xs;
      while l != NO_JUMP
        invariant IsList(code, l, ys) && NoDup(ys) && PatchAll(code, ys, vtarget, reg, dtarget) == PatchAll(old(code), xs, vtarget, reg, dtarget)
        invariant |code| == |old(code)| && forall x :: x in ys ==> 0 <= Landing(code, x, vtarget, dtarget) <= |code|
        decreases |ys|
      {
        ListTail(code, l, ys);
        PatchKeepsTail(code, ys, vtarget, reg, dtarget, GetJump(code, l));
        ok, l := PatchFirst(l, vtarget, reg, dtarget, ys);
        if !ok {
          return;
        }
        ys := ys[1..];
      }
      ListEnd(code, ys);
      ok := true;
    }

    // luaK_concat on a list (not jpc): returns the new first element.
    method Concat(l1: int, l2: int, ghost xs: seq<nat>, ghost ys: seq<nat>) returns (ok: bool, l: int)
      requires IsList(code, l1, xs) && IsList(code, l2, ys) && NoDup(xs + ys)
      modifies `code
      ensures !ok ==> AtLimit()
      ensures ok ==> IsList(code, l, xs + ys) && |code| == |old(code)| && l == (if l1 == NO_JUMP then l2 else l1)
      ensures ok ==> forall i :: 0 <= i < |code| && (xs == [] || i != xs[|xs| - 1]) ==> code[i] == old(code)[i]
      ensures ok ==> forall x :: x in xs && x < |code| ==> code[x].Jmp?
    {
      ok, l := true, l1;
      if l2 == NO_JUMP {
        assert xs + ys == xs;
      } else if l1 == NO_JUMP {
        l := l2;
        assert xs + ys == ys;
      } else {
        var last := l1;
        ghost var i := 0;
        while GetJump(code, last) != NO_JUMP  // to the end of the first list
          invariant i < |xs| && last == xs[i] && code == old(code)
          decreases |xs| - i
        {
          assert GetJump(code, xs[i]) == Link(xs, i + 1);
          last := GetJump(code, last);
          i := i + 1;
        }
        assert GetJump(code, xs[i]) == Link(xs, i + 1);
        ok := FixJump(last, l2);
        if ok {
          Joined(old(code), code, l1, l2, xs, ys);
        }
      }
    }

    lemma Joined(c: seq<Instr>, c': seq<Instr>, l1: int, l2: int, xs: seq<nat>, ys: seq<nat>)
      requires IsList(c, l1, xs) && IsList(c, l2, ys) && NoDup(xs + ys) && xs != [] && ys != []
      requires c' == c[xs[|xs| - 1] := Jmp(l2 - (xs[|xs| - 1] + 1))]
      ensures IsList(c', l1, xs + ys)
    {
      var zs, n := xs + ys, |xs| - 1;
      assert zs[n] == xs[n] && zs[n + 1] == ys[0];
      forall i | 0 <= i < |zs| ensures zs[i] < |c'| && c'[zs[i]].Jmp? && GetJump(c', zs[i]) == Link(zs, i + 1) {
        if i < n {
          assert zs[i] == xs[i] && GetJump(c, xs[i]) == Link(xs, i + 1) && zs[i + 1] == xs[i + 1];
        } else if i > n {
          assert zs[i] == ys[i - |xs|] && GetJump(c, ys[i - |xs|]) == Link(ys, i - |xs| + 1);
        }
        if i != n { assert zs[i] != zs[n]; }
      }
    }

    method DischargeJpc() returns (ok: bool)
      requires Links() && forall x :: x in jumps ==> x < |code|
      modifies `code, `jpc, `jumps
      ensures !ok ==> AtLimit()
      ensures ok ==> View() == Discharged(old(View())) && Links() && jpc == NO_JUMP
    {
      ok := PatchListAux(jpc, |code|, NO_REG, |code|, jumps);
      jpc := NO_JUMP;
      jumps := [];
    }

    // luaK_code.
    method Emit(i: Instr) returns (ok: bool, pc: nat)
      requires Links() && forall x :: x in jumps ==> x < |code|
      modifies `code, `jpc, `jumps
      ensures !ok ==> AtLimit()
      ensures ok ==> View() == Emitted(old(View()), [i]) && Links() && jpc == NO_JUMP && pc == |old(code)| && |code| == pc + 1
    {
      ok := DischargeJpc();  // they go to this place after all
      pc := |code|;
      if !ok || pc >= MAX_INT {
        return false, pc;
      }
      code := code + [i];
    }

    // A plain instruction.
    method CodePlain(i: Instr) returns (ok: bool, pc: nat)
      requires Valid() && Plain(i) && Within(i, maxstacksize)
      modifies `code, `jpc, `jumps
      ensures !ok ==> AtLimit()
      ensures ok ==> Valid() && View() == Emitted(old(View()), [i]) && pc == |old(code)| && |code| == pc + 1
    {
      EmitPlain(View(), i, Env([], []), []);
      EmittedFrame(View(), [i], maxstacksize);
      JumpsIn();
      ok, pc := Emit(i);
    }

    lemma JumpsIn()
      requires Sound()
      ensures (forall x :: x in jumps ==> x < |code|) && Links()
    {
      forall x | x in jumps ensures x < |code| { assert x in All(View()) && JumpIn(View(), x); }
    }

    // condjump: a test and its jump.
    method CondJump(i: Instr) returns (ok: bool, j: nat)
      requires Sound() && IsTest(i) && Within(i, maxstacksize)
      modifies `code, `jpc, `jumps, `pend
      ensures !ok ==> AtLimit()
      ensures ok ==> Valid() && View() == Tested(old(View()), i) && j == |old(code)| + 1 && |code| == j + 1 && code[j] == Jmp(NO_JUMP)
    {
      hide WF, IsList, NoDup;
      ghost var s := View();
      EmitTest(s, i, Env([], []), []);
      TestedFrame(s, i, maxstacksize);
      JumpsIn();
      ok, j := Emit(i);
      if !ok {
        return;
      }
      assert Discharged(View()) == View();
      ok, j := Emit(Jmp(NO_JUMP));
      if !ok {
        return;
      }
      assert code == Discharged(s).code + [i, Jmp(NO_JUMP)];
      pend := pend + {j};
    }

    // luaK_getlabel.
    method GetLabel() returns (pc: nat)
      requires WF(View().(last := |code|))
      modifies `lasttarget
      ensures pc == |code| && lasttarget == |code| && WF(View())
    {
      lasttarget := |code|;
      pc := |code|;
    }

    // luaK_patchtohere.
    method PatchToHere(list: int, ghost xs: seq<nat>) returns (ok: bool)
      requires WF(View().(last := |code|)) && Links() && Sizes() && InFrame(View(), maxstacksize)
      requires IsList(code, list, xs) && NoDup(xs) && Members(xs) <= pend
      modifies `code, `jpc, `jumps, `pend, `lasttarget
      ensures !ok ==> AtLimit()
      ensures ok ==> Valid() && Relinked(old(View()), code) && View() == ToHere(old(View()).(code := code), xs)
      ensures ok ==> forall i :: 0 <= i < |code| && (old(jumps) == [] || i != old(jumps)[|old(jumps)| - 1]) ==> code[i] == old(code)[i]
      ensures ok && old(jumps) == [] ==> code == old(code)
    {
      hide IsList, NoDup, WF, Relinked, Members;
      ghost var s := View();
      var _ := GetLabel();
      HereApart(View(), xs);
      ok, jpc := Concat(jpc, list, jumps, xs);
      if !ok {
        return;
      }
      JoinedHere(s, code, xs);
      RelinkedFrame(s, code, maxstacksize);
      HereInFrame(s.(code := code), xs, maxstacksize);
      jumps := jumps + xs;
      pend := pend - Members(xs);
    }

    // The list of pending jumps has been joined with xs.
    lemma JoinedHere(s: Code, code': seq<Instr>, xs: seq<nat>)
      requires WF(s.(last := |s.code|)) && |code'| == |s.code| && NoDup(xs) && Members(xs) <= s.pend
      requires forall i :: 0 <= i < |code'| && (s.jumps == [] || i != s.jumps[|s.jumps| - 1]) ==> code'[i] == s.code[i]
      requires forall x :: x in s.jumps && x < |code'| ==> code'[x].Jmp?
      ensures Relinked(s, code') && WF(ToHere(s.(code := code'), xs))
    {
      var s1 := s.(last := |s.code|);
      assert Members(s1.jumps) <= All(s1);
      RelinkJoined(s1, code', s1.jumps);
      RelinkOut(s1, code', Env([], []), []);
      ToHereOut(s1.(code := code'), xs, Env([], []), []);
    }

    lemma HereApart(s: Code, xs: seq<nat>)
      requires WF(s) && NoDup(xs) && Members(xs) <= s.pend
      ensures NoDup(s.jumps + xs)
    {
      ToHereOut(s, xs, Env([], []), []);
    }

    lemma RelinkJoined(s: Code, code': seq<Instr>, ys: seq<nat>)
      requires WF(s) && |code'| == |s.code| && Members(ys) <= All(s)
      requires forall i :: 0 <= i < |code'| && (ys == [] || i != ys[|ys| - 1]) ==> code'[i] == s.code[i]
      requires forall x :: x in ys && x < |code'| ==> code'[x].Jmp?
      ensures Relinked(s, code')
    {
      if ys != [] { assert ys[|ys| - 1] in ys && ys[|ys| - 1] in Members(ys); }
    }

    // A new jump at the end of the code is in no list.
    lemma NewJump(c: seq<Instr>, head: int, ys: seq<nat>)
      requires IsList(c, head, ys) && NoDup(ys)
      ensures IsList(c + [Jmp(NO_JUMP)], head, ys) && IsList(c + [Jmp(NO_JUMP)], |c|, [|c|]) && NoDup([|c|] + ys)
    {
      ListFrame(c, c + [Jmp(NO_JUMP)], head, ys);
      assert forall i :: 0 <= i < |ys| ==> ys[i] < |c|;
    }

    // luaK_jump: the jumps to here are put on hold with the new one.
    method Jump() returns (ok: bool, j: nat)
      requires Valid()
      modifies `code, `jpc, `jumps, `pend
      ensures !ok ==> AtLimit()
      ensures ok ==> j == |old(code)| && |code| == j + 1 && code[j].Jmp? && View() == Skipping(old(View()), true, code[j].sbx)
      ensures ok ==> jpc == NO_JUMP && IsList(code, j, Skips(old(View()), true)) && Sound()
    {
      hide WF, IsList, NoDup;
      ghost var s := View();
      var saved := jpc;  // whoever waits here is to follow the new jump
      ghost var ys := jumps;
      JumpsIn();
      EmptyList(code);
      jpc := NO_JUMP;
      jumps := [];
      ok, j := Emit(Jmp(NO_JUMP));
      if !ok {
        return;
      }
      assert code == s.code + [Jmp(NO_JUMP)];
      NewJump(s.code, saved, ys);
      var list;
      ok, list := Concat(j, saved, [j], ys);
      if ok {
        assert code == s.code + [code[j]];
        SkippingOut(s, true, code[j].sbx, Env([], []), []);
        SkippingFrame(s, true, code[j].sbx, maxstacksize);
        pend := pend + Members([j] + ys);
        EmptyList(code);
      }
    }

    // ------------------------------------------------------- registers and constants

    // luaK_checkstack; fails if too many registers are needed.
    method CheckStack(n: nat) returns (ok: bool)
      requires Valid()
      modifies `maxstacksize
      ensures !ok ==> freereg + n >= MAXREGS
      ensures Valid() && (ok ==> freereg + n <= maxstacksize)
      ensures maxstacksize == (if ok && freereg + n > old(maxstacksize) then freereg + n else old(maxstacksize))
    {
      var newstack := freereg + n;
      ok := true;
      if newstack > maxstacksize {
        if newstack >= MAXREGS {
          return false;
        }
        WiderFrame(View(), maxstacksize, newstack);
        maxstacksize := newstack;
      }
    }

    method ReserveRegs(n: nat) returns (ok: bool)
      requires Valid()
      modifies `maxstacksize, `freereg
      ensures !ok ==> freereg + n >= MAXREGS
      ensures Valid() && (ok ==> freereg == old(freereg) + n) && (!ok ==> freereg == old(freereg))
      ensures maxstacksize == (if ok && freereg > old(maxstacksize) then freereg else old(maxstacksize))
    {
      ok := CheckStack(n);
      if ok {
        freereg := freereg + n;
      }
    }

    // Registers of local variables are not freed; others, last first.
    method FreeReg(reg: nat)
      requires Valid() && reg < BITRK && (reg >= nactvar ==> reg + 1 == freereg)
      modifies `freereg
      ensures Valid() && freereg == (if reg >= nactvar then reg else old(freereg))
    {
      if reg >= nactvar {
        freereg := freereg - 1;
      }
    }

    // The index of a constant: an old one that is equal, or a new one.
    method AddK(v: Value) returns (ok: bool, index: nat)
      modifies `k, `h
      ensures !ok ==> AtLimit()
      ensures ok ==> old(k) <= k && index < |k| && k[index] == v && |k| <= |old(k)| + 1
    {
      if v in h && 0 <= h[v] < |k| && k[h[v]] == v {
        return true, h[v];
      }
      index := |k|;
      if index >= MAXARG_Ax {
        return false, index;  // too many constants
      }
      h := h[v := index];
      k := k + [v];
      ok := true;
    }

    // luaK_codek.
    method CodeK(reg: nat, index: nat) returns (ok: bool)
      requires Valid() && reg < maxstacksize
      modifies `code, `jpc, `jumps
      ensures !ok ==> AtLimit()
      ensures ok ==> Valid() && View() == Emitted(old(View()), if index <= MAXARG_Bx then [LoadK(reg, index)] else [LoadKX(reg), ExtraArg(index)])
    {
      var pc;
      if index <= MAXARG_Bx {
        ok, pc := CodePlain(LoadK(reg, index));
      } else {
        ghost var s := View();
        EmitLoadKX(s, reg, index, Env([], []), []);
        EmittedFrame(s, [LoadKX(reg), ExtraArg(index)], maxstacksize);
        JumpsIn();
        ok, pc := Emit(LoadKX(reg));
        if ok {
          assert Discharged(View()) == View();
          ok, pc := Emit(ExtraArg(index));
          assert ok ==> code == Discharged(s).code + [LoadKX(reg), ExtraArg(index)];
        }
      }
    }

    // luaK_nil: extends a LOADNIL before it, if no jump comes between the two.
    method LoadNils(start: nat, n: nat, ghost env: Env, ghost r: Regs) returns (ok: bool)
      requires Valid() && n > 0 && start + n <= maxstacksize
      modifies `code, `jpc, `jumps
      ensures !ok ==> AtLimit()
      ensures ok ==> Valid() && Out(View(), env, r) == AfterNils(Out(old(View()), env, r), start, n)
      ensures ok ==> View() == Emitted(old(View()), [LoadNil(start, n - 1)]) || MergedNil(old(View()), View())
    {
      hide InFrame, IsList, NoDup, Out;
      var from, l := start, start + n - 1;  // the last one
      if |code| > lasttarget {  // no jump arrives here
        var previous := code[|code| - 1];
        if previous.LoadNil? {
          var pfrom := previous.a;
          var pl := pfrom + previous.b;
          if (pfrom <= from && from <= pl + 1) || (from <= pfrom && pfrom <= l + 1) {  // the two ranges touch
            if pfrom < from { from := pfrom; }
            if pl > l { l := pl; }
            MergeNil(View(), LoadNil(from, l - from), start, n, env, r);
            ReplaceList(code, LoadNil(from, l - from), jpc, jumps);
            MergedFrame(View(), LoadNil(from, l - from), start, n, maxstacksize);
            code := code[|code| - 1 := LoadNil(from, l - from)];
            return true;
          }
        }
      }
      EmitPlain(View(), LoadNil(start, n - 1), env, r);
      var pc;
      ok, pc := CodePlain(LoadNil(start, n - 1));
    }

    lemma ReplaceList(c: seq<Instr>, i: Instr, head: int, xs: seq<nat>)
      requires c != [] && c[|c| - 1].LoadNil? && IsList(c, head, xs)
      ensures IsList(c[|c| - 1 := i], head, xs)
    {
      forall x | x in xs ensures x < |c| - 1 {
        var j :| 0 <= j < |xs| && xs[j] == x;
      }
      ListFrame(c, c[|c| - 1 := i], head, xs);
    }
  }

  function AfterNils(o: Outcome, start: nat, n: nat): Outcome
    requires n > 0
  {
    if o.Fall? then Fall(Nils(o.r, start, n - 1)) else o
  }

  // Only the last instruction has changed, and it is LOADNIL before and after.
  ghost predicate MergedNil(s: Code, s': Code) {
    && s.code != [] && s.code[|s.code| - 1].LoadNil?
    && exists a, b :: s' == s.(code := s.code[|s.code| - 1 := LoadNil(a, b)])
  }

  lemma NilsJoin(r: Regs, a: nat, b: nat, c: nat, d: nat, from: nat, l: nat)
    requires (a <= c && c <= a + b + 1) || (c <= a && a <= c + d + 1)
    requires from == (if a < c then a else c) && l == (if a + b > c + d then a + b else c + d)
    ensures Nils(Nils(r, a, b), c, d) == Nils(r, from, l - from)
  {}

  lemma MergedFrame(s: Code, i: Instr, start: nat, n: nat, size: nat)
    requires s.code != [] && s.code[|s.code| - 1].LoadNil? && i.LoadNil? && n > 0 && InFrame(s, size) && start + n <= size
    requires var p := s.code[|s.code| - 1]; i.a + i.b == (if p.a + p.b > start + n - 1 then p.a + p.b else start + n - 1)
    ensures InFrame(s.(code := s.code[|s.code| - 1 := i]), size)
  {
    assert Within(s.code[|s.code| - 1], size);
    ReplacedFrame(s, |s.code| - 1, i, size);
  }

  lemma MergeNil(s: Code, i: Instr, start: nat, n: nat, env: Env, r: Regs)
    requires WF(s) && n > 0 && s.last < |s.code| && s.base < |s.code| && s.code[|s.code| - 1].LoadNil? && i.LoadNil?
    requires var p := s.code[|s.code| - 1];
      && ((p.a <= start && start <= p.a + p.b + 1) || (start <= p.a && p.a <= start + n))
      && i.a == (if p.a < start then p.a else start)
      && i.a + i.b == (if p.a + p.b > start + n - 1 then p.a + p.b else start + n - 1)
    ensures var s' := s.(code := s.code[|s.code| - 1 := i]);
      WF(s') && Out(s', env, r) == AfterNils(Out(s, env, r), start, n)
  {
    var p := s.code[|s.code| - 1];
    assert s.jumps == [];
    ReplaceOut(s, i, env, r);
    PlainOut(s, env, r);
    var o := Out(Before(s, |s.code| - 1), env, r);
    if o.Fall? {
      NilsJoin(o.r, p.a, p.b, start, n - 1, i.a, i.a + i.b);
    }
  }
}
