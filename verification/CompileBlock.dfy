// Compiling blocks of statements (lparser.c): the code does what the statements mean.

module CompileBlock {
  import opened Common
  import opened LuaVM
  import opened JumpCode
  import opened CodeState
  import opened FrameSize
  import opened CodeGen
  import opened ExpMeaning
  import opened LuaK
  import opened CondCode
  import opened CompileExp
  import opened CompileStat

  const MAXVARS: nat := 200

  datatype Block = Done | Then(first: Stat, rest: Block)

  datatype Stat =
    | Declare(n: nat)             // local a, b, ...
    | Local(x: Expr)              // local a = x
    | Assign(v: nat, x: Expr)     // a = x, for a local variable
    | Do(b: Block)
    | If(arms: Arms)              // the first is a test

  // The parts of an if statement: if and elseif, then perhaps else.
  datatype Arms = End | Else(b: Block) | Test(cond: Expr, body: Block, rest: Arms)

  // -------------------------------------------------------------------- the language

  // The local variables after a block; None is an error.
  function RunBlock(b: Block, up: seq<Value>, r: seq<Value>): (q: Option<seq<Value>>)
    ensures q.Some? ==> |q.value| >= |r|
    decreases b, 0
  {
    match b
    case Done => Some(r)
    case Then(s, rest) => (match RunStat(s, up, r) case None => None case Some(q) => RunBlock(rest, up, q))
  }

  function RunStat(s: Stat, up: seq<Value>, r: seq<Value>): (q: Option<seq<Value>>)
    ensures q.Some? ==> |q.value| >= |r|
    decreases s
  {
    match s
    case Declare(n) => Some(r + seq(n, i => Nil))
    case Local(x) => (match Eval(x, up, r) case None => None case Some(v) => Some(r + [v]))
    case Assign(i, x) => (match Eval(x, up, r) case None => None case Some(v) => Some(Set(r, i, v)))
    case Do(b) => RunInner(b, up, r)
    case If(arms) => RunArms(arms, up, r)
  }

  function RunArms(a: Arms, up: seq<Value>, r: seq<Value>): (q: Option<seq<Value>>)
    ensures q.Some? ==> |q.value| == |r|
    decreases a
  {
    match a
    case End => Some(r)
    case Else(b) => RunInner(b, up, r)
    case Test(c, b, rest) =>
      (match Eval(c, up, r)
       case None => None
       case Some(v) => if IsFalse(v) then RunArms(rest, up, r) else RunInner(b, up, r))
  }

  // The local variables of an inner block end with it.
  function RunInner(b: Block, up: seq<Value>, r: seq<Value>): (q: Option<seq<Value>>)
    ensures q.Some? ==> |q.value| == |r|
    decreases b, 1
  {
    match RunBlock(b, up, r) case None => None case Some(q) => Some(q[..|r|])
  }

  // How many local variables a statement adds.
  function Adds(s: Stat): nat {
    match s case Declare(n) => n case Local(_) => 1 case _ => 0
  }

  function Added(b: Block): nat {
    match b case Done => 0 case Then(s, rest) => Adds(s) + Added(rest)
  }

  // Only active local variables are used.
  predicate ScopedBlock(b: Block, n: nat) {
    b.Then? ==> ScopedStat(b.first, n) && ScopedBlock(b.rest, n + Adds(b.first))
  }

  predicate ScopedStat(s: Stat, n: nat) {
    match s
    case Declare(m) => m > 0
    case Local(x) => Scoped(x, n)
    case Assign(v, x) => v < n && Scoped(x, n)
    case Do(b) => ScopedBlock(b, n)
    case If(arms) => ScopedArms(arms, n)
  }

  predicate ScopedArms(a: Arms, n: nat) {
    match a
    case End => true
    case Else(b) => ScopedBlock(b, n)
    case Test(c, b, rest) => Scoped(c, n) && ScopedBlock(b, n) && ScopedArms(rest, n)
  }

  // The most local variables that are active at once, if there are n before.
  function BlockVars(b: Block, n: nat): (m: nat)
    ensures m >= n
  {
    match b
    case Done => n
    case Then(s, rest) => Larger(StatVars(s, n), BlockVars(rest, n + Adds(s)))
  }

  function StatVars(s: Stat, n: nat): (m: nat)
    ensures m >= n + Adds(s)
  {
    match s
    case Do(b) => BlockVars(b, n)
    case If(arms) => ArmVars(arms, n)
    case _ => n + Adds(s)
  }

  function ArmVars(a: Arms, n: nat): (m: nat)
    ensures m >= n
  {
    match a
    case End => n
    case Else(b) => BlockVars(b, n)
    case Test(_, b, rest) => Larger(BlockVars(b, n), ArmVars(rest, n))
  }

  function Larger(a: nat, b: nat): nat {
    if a > b then a else b
  }

  // ----------------------------------------------------------------------- the code

  // The values of the first n registers, which are local variables.
  function Locals(o: Outcome, n: nat): seq<Value> {
    if (o.Fall? || o.Exit?) && n <= |o.r| then o.r[..n] else []
  }

  // The registers begin with the values of q.
  predicate Holds(o: Outcome, o': Outcome, q: seq<Value>) {
    (o'.Fall? || o'.Exit?) && (o.Fall? || o.Exit?) && |o'.r| == |o.r| && q <= o'.r
  }

  // A run that got here with o gets to the end with o': the local variables have their
  // values, or there was an error.
  predicate Ran(o: Outcome, o': Outcome, q: Option<seq<Value>>) {
    if !o.Fall? then o' == o
    else match q
      case None => o' == Fault
      case Some(v) => o'.Fall? && Holds(o, o', v)
  }

  // The same for the rest of an if statement, which the jumps of esc leave.
  predicate RanArms(o: Outcome, o': Outcome, esc: seq<nat>, q: Option<seq<Value>>) {
    if o.Exit? && o.j in esc then o' == Fall(o.r) else Ran(o, o', q)
  }

  // The registers below n are local variables, and there are no temporaries.
  ghost predicate Settled(fs: FuncState, n: nat, s: Code, k: seq<Value>, own: set<nat>)
    reads fs
  {
    fs.Valid() && fs.freereg == fs.nactvar == n && k <= fs.k && Frame(s, fs.View(), own, {})
  }

  // ------------------------------------------------------------------ single statements

  lemma LocalRan(x: Expr, env: Env, o: Outcome, o': Outcome, n: nat)
    requires Evaluates(x, env, o, o', n, n, n) && Scoped(x, n) && (o.Fall? ==> |o.r| > n)
    ensures Ran(o, o', RunStat(Local(x), env.up, Locals(o, n)))
  {
    if o.Fall? { EvalLocals(x, env.up, o.r, o.r[..n], n); }
    if o'.Fall? {
      forall i | 0 <= i < n ensures At(o'.r, i) == o.r[i] {}
    }
  }

  lemma AssignRan(v: nat, x: Expr, env: Env, o: Outcome, o': Outcome, n: nat)
    requires Evaluates(x, env, o, o', v, n, v) && Scoped(x, n) && v < n && (o.Fall? ==> |o.r| > n)
    ensures Ran(o, o', RunStat(Assign(v, x), env.up, Locals(o, n)))
  {
    if o.Fall? { EvalLocals(x, env.up, o.r, o.r[..n], n); }
    if o'.Fall? {
      forall i | 0 <= i < n && i != v ensures At(o'.r, i) == o.r[i] {}
    }
  }

  lemma DeclareRan(n: nat, env: Env, o: Outcome, start: nat)
    requires n > 0 && (o.Fall? ==> |o.r| >= start + n)
    ensures Ran(o, AfterNils(o, start, n), RunStat(Declare(n), env.up, Locals(o, start)))
  {}

  // localstat, for one variable.
  method CompileLocal(fs: FuncState, x: Expr, ghost env: Env, ghost r: Regs) returns (ok: bool)
    requires fs.Valid() && fs.freereg == fs.nactvar && Scoped(x, fs.nactvar) && |r| >= MAXREGS
    modifies fs`code, fs`jpc, fs`jumps, fs`pend, fs`lasttarget, fs`k, fs`h, fs`freereg, fs`maxstacksize, fs`nactvar
    ensures !ok ==> fs.AtLimit() || old(fs.nactvar) + 1 > MAXVARS
    ensures ok ==> Settled(fs, old(fs.nactvar) + 1, old(fs.View()), old(fs.k), {})
    ensures ok && fs.k <= env.k ==> var o := old(Out(fs.View(), env, r));
      Ran(o, Out(fs.View(), env, r), RunStat(Local(x), env.up, Locals(o, old(fs.nactvar))))
  {
    hide WF, Frame, IsList, NoDup, Out, Ran, RunStat, Locals, Evaluates;
    if fs.nactvar + 1 > MAXVARS {
      return false;  // too many local variables
    }
    ghost var s := fs.View();
    var reg;
    ok, reg := ExpToNextReg(fs, x, env, r);
    if !ok {
      return;
    }
    fs.nactvar := fs.nactvar + 1;
    OutOk(s, env, r);
    if fs.k <= env.k { LocalRan(x, env, Out(s, env, r), Out(fs.View(), env, r), reg); }
  }

  // localstat, for variables without a value.
  method CompileDeclare(fs: FuncState, n: nat, ghost env: Env, ghost r: Regs) returns (ok: bool)
    requires fs.Valid() && fs.freereg == fs.nactvar && n > 0 && |r| >= MAXREGS
    modifies fs`code, fs`jpc, fs`jumps, fs`freereg, fs`maxstacksize, fs`nactvar
    ensures !ok ==> fs.AtLimit() || old(fs.nactvar) + n > MAXVARS
    ensures ok ==> Settled(fs, old(fs.nactvar) + n, old(fs.View()), old(fs.k), {})
    ensures ok && fs.k <= env.k ==> var o := old(Out(fs.View(), env, r));
      Ran(o, Out(fs.View(), env, r), RunStat(Declare(n), env.up, Locals(o, old(fs.nactvar))))
  {
    hide WF, Frame, IsList, NoDup, Out, Ran, RunStat, Locals;
    if fs.nactvar + n > MAXVARS {
      return false;  // too many local variables
    }
    ghost var s := fs.View();
    var reg := fs.freereg;
    ok := fs.ReserveRegs(n);
    if !ok {
      return;
    }
    EmitFrame(s, [LoadNil(reg, n - 1)]);
    ok := fs.LoadNils(reg, n, env, r);
    if !ok {
      return;
    }
    if MergedNil(s, fs.View()) { NilFrame(s, fs.View()); }
    fs.nactvar := fs.nactvar + n;
    OutOk(s, env, r);
    DeclareRan(n, env, Out(s, env, r), reg);
  }

  // Assignment to a local variable.
  method CompileAssign(fs: FuncState, v: nat, x: Expr, ghost env: Env, ghost r: Regs) returns (ok: bool)
    requires fs.Valid() && fs.freereg == fs.nactvar && Scoped(x, fs.nactvar) && v < fs.nactvar && |r| >= MAXREGS
    modifies fs`code, fs`jpc, fs`jumps, fs`pend, fs`lasttarget, fs`k, fs`h, fs`freereg, fs`maxstacksize
    ensures !ok ==> fs.AtLimit()
    ensures ok ==> Settled(fs, old(fs.nactvar), old(fs.View()), old(fs.k), {})
    ensures ok && fs.k <= env.k ==> var o := old(Out(fs.View(), env, r));
      Ran(o, Out(fs.View(), env, r), RunStat(Assign(v, x), env.up, Locals(o, old(fs.nactvar))))
  {
    hide WF, Frame, IsList, NoDup, Out, Ran, RunStat, Locals, Evaluates;
    ghost var s := fs.View();
    ok := StoreLocal(fs, v, x, env, r);
    OutOk(s, env, r);
    if ok && fs.k <= env.k { AssignRan(v, x, env, Out(s, env, r), Out(fs.View(), env, r), fs.nactvar); }
  }

  // ------------------------------------------------------------------------- the parts

  // A condition that skips what follows when it is false.
  method CompileTest(fs: FuncState, c: Expr, ghost env: Env, ghost r: Regs) returns (ok: bool, list: int, ghost exits: seq<nat>)
    requires fs.Valid() && fs.freereg == fs.nactvar && Scoped(c, fs.nactvar) && |r| >= MAXREGS
    modifies fs`code, fs`jpc, fs`jumps, fs`pend, fs`lasttarget, fs`k, fs`h, fs`freereg, fs`maxstacksize
    ensures !ok ==> fs.AtLimit()
    ensures ok ==> fs.Valid() && fs.freereg == fs.nactvar && old(fs.k) <= fs.k && Frame(old(fs.View()), fs.View(), {}, Members(exits))
    ensures ok ==> IsList(fs.code, list, exits) && NoDup(exits) && Members(exits) <= fs.pend
    ensures ok && fs.k <= env.k ==> Decides(c, env, old(Out(fs.View(), env, r)), Out(fs.View(), env, r), exits, fs.nactvar)
  {
    hide WF, Means, Frame, IsList, NoDup, TwoLists, Out, Conds, Decides, Members;
    ghost var s := fs.View();
    ghost var m := Start(s, c, env, r, fs.freereg);
    StartBegins(fs, c, env, r);
    var e;
    ghost var T, F;
    list, exits := NO_JUMP, [];
    ok, e, T, F := Compile(fs, c, m);
    if !ok {
      return;
    }
    ghost var s1 := fs.View();
    TemplessTop(fs, e);
    ok, list, exits := GoIfTrue(fs, e, T, F, m);
    if ok {
      FrameTrans(s, s1, fs.View(), {}, Own(e, T, F), Members(exits));
      if fs.k <= env.k { CondsDecide(s, fs.View(), c, env, r, exits, fs.freereg, m.v); }
    }
  }

  // Going on with more jumps on hold that are not touched.
  lemma FrameWith(s: Code, s': Code, own': set<nat>, own: set<nat>)
    requires Frame(s, s', {}, own') && own <= s.pend
    ensures Frame(s, s', own, own + own')
  {}

  // A list on hold is not touched.
  lemma HoldList(s: Code, s': Code, own': set<nat>, head: int, xs: seq<nat>)
    requires Frame(s, s', {}, own') && IsList(s.code, head, xs) && Members(xs) <= s.pend
    ensures IsList(s'.code, head, xs) && Members(xs) <= s'.pend && Members(xs) !! own'
  {
    FrameList(s, s', {}, own', head, xs);
  }

  // Leaving a block: its local variables are no longer active.
  method LeaveBlock(fs: FuncState, n: nat)
    requires fs.Valid() && n <= fs.nactvar && fs.freereg == fs.nactvar
    modifies fs`nactvar, fs`freereg
    ensures fs.Valid() && fs.freereg == fs.nactvar == n
  {
    fs.nactvar := n;
    fs.freereg := n;  // the locals of the block are gone
  }

  // A jump over the parts that follow joins those on hold.
  lemma SkipFrame(s: Code, s': Code, off: int)
    requires WF(s) && s' == Skipping(s, true, off)
    ensures Frame(s, s', {}, Members(Skips(s, true))) && NoDup(Skips(s, true))
  {
    forall j | j in All(s) ensures j < |s.code| { assert JumpIn(s, j); }
    assert forall j :: j in s.jumps ==> j in Members(s.jumps);
    assert Members(Skips(s, true)) == {|s.code|} + Members(s.jumps);
  }

  // Falling through turns into leaving.
  predicate Left(o: Outcome, o': Outcome, xs: seq<nat>) {
    if o.Fall? then o'.Exit? && o'.j in xs && o'.r == o.r else o' == o
  }

  lemma SkipLeaves(s: Code, off: int, env: Env, r: Regs)
    requires WF(s)
    ensures Left(Out(s, env, r), Out(Skipping(s, true, off), env, r), Skips(s, true))
  {
    SkippingOut(s, true, off, env, r);
  }

  // The jumps of a list come here.
  method PatchHere(fs: FuncState, list: int, ghost xs: seq<nat>, ghost env: Env, ghost r: Regs) returns (ok: bool)
    requires fs.Valid() && IsList(fs.code, list, xs) && NoDup(xs) && Members(xs) <= fs.pend
    modifies fs`code, fs`jpc, fs`jumps, fs`pend, fs`lasttarget
    ensures !ok ==> fs.AtLimit()
    ensures ok ==> fs.Valid() && Frame(old(fs.View()), fs.View(), Members(xs), {})
    ensures ok ==> Out(fs.View(), env, r) == Here(old(Out(fs.View(), env, r)), xs)
  {
    hide WF, IsList, NoDup, Frame, Members, Out;
    ghost var s := fs.View();
    LabelWF(s);
    ok := fs.PatchToHere(list, xs);
    if ok {
      HereFrame(s, fs.View(), xs);
      HereOut(s, fs.View(), xs, env, r);
    }
  }

  lemma HereOut(s: Code, s': Code, xs: seq<nat>, env: Env, r: Regs)
    requires WF(s) && Relinked(s, s'.code) && s' == ToHere(s.(code := s'.code), xs) && NoDup(xs) && Members(xs) <= s.pend
    ensures Out(s', env, r) == Here(Out(s, env, r), xs)
  {
    RelinkOut(s, s'.code, env, r);
    ToHereOut(s.(code := s'.code), xs, env, r);
  }

  // The end of a part that others follow: a jump over them joins the list of escapes, and
  // the exits of the condition come here.
  method CloseArm(fs: FuncState, escape: int, exit: int, ghost esc: seq<nat>, ghost exits: seq<nat>, ghost env: Env, ghost r: Regs)
    returns (ok: bool, escape': int, ghost esc': seq<nat>)
    requires fs.Valid() && IsList(fs.code, escape, esc) && IsList(fs.code, exit, exits)
    requires NoDup(esc) && NoDup(exits) && Members(esc) <= fs.pend && Members(exits) <= fs.pend && Members(esc) !! Members(exits)
    modifies fs`code, fs`jpc, fs`jumps, fs`pend, fs`lasttarget
    ensures !ok ==> fs.AtLimit()
    ensures ok ==> fs.Valid() && IsList(fs.code, escape', esc') && NoDup(esc') && Members(esc') <= fs.pend
    ensures ok ==> esc' == esc + Skips(old(fs.View()), true) && Members(Skips(old(fs.View()), true)) !! old(fs.pend)
    ensures ok ==> Frame(old(fs.View()), fs.View(), Members(esc) + Members(exits), Members(esc'))
    ensures ok ==> exists o :: Left(old(Out(fs.View(), env, r)), o, Skips(old(fs.View()), true)) && Out(fs.View(), env, r) == Here(o, exits)
  {
    hide WF, IsList, NoDup, Frame, Members, Out, Relinked, Left, Here;
    ghost var s := fs.View();
    ghost var skips := Skips(s, true);
    escape', esc' := escape, esc + skips;
    var j;
    ok, j := fs.Jump();
    if !ok {
      return;
    }
    ghost var s1 := fs.View();
    ghost var off := fs.code[j].sbx;
    SkipFrame(s, s1, off);
    SkipLeaves(s, off, env, r);
    EmptyList(fs.code);
    HoldList(s, s1, Members(skips), escape, esc);
    HoldList(s, s1, Members(skips), exit, exits);
    SkipApart(s, s1, off, esc, exits);
    ok, escape' := Leave(fs, escape, j, exit, esc, skips, exits);
    if ok {
      HereOut(s1, fs.View(), exits, env, r);
      CloseFrame(s, s1, fs.View(), esc, exits, skips);
    }
  }

  lemma SkipApart(s: Code, s': Code, off: int, esc: seq<nat>, exits: seq<nat>)
    requires WF(s) && s' == Skipping(s, true, off) && NoDup(Skips(s, true))
    requires NoDup(esc) && NoDup(exits) && Members(esc) <= s.pend && Members(exits) <= s.pend && Members(esc) !! Members(exits)
    ensures Apart(s', esc, Skips(s, true), exits) && Members(Skips(s, true)) !! s.pend
  {
    SkipFrame(s, s', off);
  }

  lemma CloseFrame(s: Code, s1: Code, s2: Code, esc: seq<nat>, exits: seq<nat>, skips: seq<nat>)
    requires Frame(s, s1, {}, Members(skips)) && Members(esc) <= s.pend && Members(exits) <= s.pend
    requires Frame(s1, s2, Members(esc) + Members(skips) + Members(exits), Members(esc + skips))
    ensures Frame(s, s2, Members(esc) + Members(exits), Members(esc + skips))
  {
    FrameWith(s, s1, Members(skips), Members(esc) + Members(exits));
    var own := Members(esc) + Members(skips) + Members(exits);
    assert Members(esc) + Members(exits) + Members(skips) == own;
    FrameTrans(s, s1, s2, Members(esc) + Members(exits), own, Members(esc + skips));
  }

  // ------------------------------------------------------------------------- if and do

  // A run through a part of an if statement: it goes on to the next part if the condition
  // is false, and leaves through esc otherwise if there are more parts.
  predicate RanPart(c: Expr, b: Block, more: bool, env: Env, o: Outcome, o': Outcome, esc: seq<nat>, esc': seq<nat>, n: nat) {
    if !o.Fall? then o' == o && (o.Exit? ==> (o.j in esc' <==> o.j in esc))
    else match Eval(c, env.up, Locals(o, n))
      case None => o' == Fault
      case Some(v) =>
        if IsFalse(v) then o'.Fall? && Holds(o, o', Locals(o, n))
        else match RunInner(b, env.up, Locals(o, n))
          case None => o' == Fault
          case Some(q) => Holds(o, o', q) && if more then o'.Exit? && o'.j in esc' else o'.Fall?
  }

  // The outcomes after the condition, the body and the jump.
  lemma PartRuns(c: Expr, b: Block, more: bool, env: Env, o: Outcome, o1: Outcome, o2: Outcome, o3: Outcome, exits: seq<nat>,
                 esc: seq<nat>, skips: seq<nat>, n: nat)
    requires Decides(c, env, o, o1, exits, n) && Ran(o1, o2, RunInner(b, env.up, Locals(o1, n)))
    requires (if more then Left(o2, o3, skips) else o3 == o2 && skips == []) && Scoped(c, n)
    requires o.Exit? ==> o.j !in exits && o.j !in skips
    requires (forall j :: j in skips ==> j !in exits) && (o.Fall? ==> |o.r| > n)
    ensures RanPart(c, b, more, env, o, Here(o3, exits), esc, esc + skips, n)
  {
    if o.Fall? {
      EvalLocals(c, env.up, o.r, o.r[..n], n);
      if o1.Fall? || o1.Exit? {
        forall i | 0 <= i < n ensures o1.r[i] == o.r[i] { assert At(o1.r, i) == At(o.r, i); }
        assert o1.r[..n] == o.r[..n];
      }
    }
  }

  // The frame over a condition and a body.
  lemma PartFrame(s: Code, s1: Code, s2: Code, exits: seq<nat>, escape: int, esc: seq<nat>, list: int)
    requires Frame(s, s1, {}, Members(exits)) && Frame(s1, s2, {}, {})
    requires IsList(s.code, escape, esc) && Members(esc) <= s.pend && IsList(s1.code, list, exits) && Members(exits) <= s1.pend
    ensures IsList(s2.code, escape, esc) && IsList(s2.code, list, exits) && Members(esc) !! Members(exits)
    ensures Members(esc) <= s2.pend && Members(exits) <= s2.pend && Frame(s, s2, Members(esc), Members(esc) + Members(exits))
    ensures Frame(s, s2, {}, Members(exits)) && s.pend !! Members(exits) && s.pend <= s2.pend
  {
    hide IsList;
    HoldList(s, s1, Members(exits), escape, esc);
    HoldList(s1, s2, {}, escape, esc);
    HoldList(s1, s2, {}, list, exits);
    FrameWith(s1, s2, {}, Members(exits));
    assert Members(exits) + {} == Members(exits);
    FrameTrans(s, s1, s2, {}, Members(exits), Members(exits));
    FrameWith(s, s2, Members(exits), Members(esc));
  }

  lemma SkippedFrame(s: Code, s2: Code, s3: Code, exits: seq<nat>, escape: int, esc: seq<nat>)
    requires Frame(s, s2, {}, Members(exits)) && Frame(s2, s3, Members(exits), {})
    requires IsList(s.code, escape, esc) && Members(esc) <= s.pend
    ensures Frame(s, s3, Members(esc), Members(esc)) && IsList(s3.code, escape, esc) && Members(esc) <= s3.pend
  {
    FrameTrans(s, s2, s3, {}, Members(exits), {});
    hide Frame, IsList;
    HoldList(s, s3, {}, escape, esc);
    FrameWith(s, s3, {}, Members(esc));
    assert Members(esc) + {} == Members(esc);
  }

  lemma NoMembers()
    ensures Members([]) == {}
  {}

  // Jumps that were pending before are in neither list.
  lemma Elsewhere(P: set<nat>, Q: set<nat>, exits: seq<nat>, skips: seq<nat>)
    requires P <= Q && P !! Members(exits) && Members(exits) <= Q && Q !! Members(skips)
    ensures (forall j :: j in P ==> j !in exits && j !in skips) && forall j :: j in skips ==> j !in exits
  {
    forall j | j in exits ensures j in Members(exits) {}
    forall j | j in skips ensures j in Members(skips) {}
  }

  // test_then_block: a condition and what to do if it is true.
  method CompilePart(fs: FuncState, c: Expr, b: Block, more: bool, escape: int, ghost esc: seq<nat>, ghost env: Env, ghost r: Regs)
    returns (ok: bool, escape': int, ghost esc': seq<nat>)
    requires fs.Valid() && fs.freereg == fs.nactvar && Scoped(c, fs.nactvar) && ScopedBlock(b, fs.nactvar) && |r| >= MAXREGS
    requires IsList(fs.code, escape, esc) && NoDup(esc) && Members(esc) <= fs.pend
    modifies fs`code, fs`jpc, fs`jumps, fs`pend, fs`lasttarget, fs`k, fs`h, fs`freereg, fs`maxstacksize, fs`nactvar
    ensures !ok ==> fs.AtLimit() || BlockVars(b, old(fs.nactvar)) > MAXVARS
    ensures ok ==> fs.Valid() && fs.freereg == fs.nactvar == old(fs.nactvar) && old(fs.k) <= fs.k
    ensures ok ==> Frame(old(fs.View()), fs.View(), Members(esc), Members(esc'))
    ensures ok ==> IsList(fs.code, escape', esc') && NoDup(esc') && Members(esc') <= fs.pend
    ensures ok && fs.k <= env.k ==>
      RanPart(c, b, more, env, old(Out(fs.View(), env, r)), Out(fs.View(), env, r), esc, esc', fs.nactvar)
    decreases b, 2
  {
    hide WF, Frame, IsList, NoDup, Out, Members, Decides, Ran, Left, RanPart, RunInner, Locals, Skips, ScopedBlock, Here;
    ghost var s, n := fs.View(), fs.nactvar;
    escape', esc' := escape, esc;
    var exit;
    ghost var exits;
    ok, exit, exits := CompileTest(fs, c, env, r);
    if !ok {
      return;
    }
    ghost var s1 := fs.View();
    ok := CompileInner(fs, b, env, r);
    if !ok {
      return;
    }
    ghost var s2 := fs.View();
    PartFrame(s, s1, s2, exits, escape, esc, exit);
    OutOk(s, env, r);
    if more {
      ok, escape', esc' := CloseArm(fs, escape, exit, esc, exits, env, r);
      if ok {
        ghost var o :| Left(Out(s2, env, r), o, Skips(s2, true)) && Out(fs.View(), env, r) == Here(o, exits);
        Elsewhere(s.pend, s2.pend, exits, Skips(s2, true));
        FrameTrans(s, s2, fs.View(), Members(esc), Members(esc) + Members(exits), Members(esc'));
        if fs.k <= env.k { PartRuns(c, b, more, env, Out(s, env, r), Out(s1, env, r), Out(s2, env, r), o, exits, esc, Skips(s2, true), n); }
      }
    } else {
      ok := PatchHere(fs, exit, exits, env, r);
      if ok {
        SkippedFrame(s, s2, fs.View(), exits, escape, esc);
        NoMembers();
        Elsewhere(s.pend, s2.pend, exits, []);
        assert esc + [] == esc;
        if fs.k <= env.k { PartRuns(c, b, more, env, Out(s, env, r), Out(s1, env, r), Out(s2, env, r), Out(s2, env, r), exits, esc, [], n); }
      }
    }
  }

  // block.
  method CompileInner(fs: FuncState, b: Block, ghost env: Env, ghost r: Regs) returns (ok: bool)
    requires fs.Valid() && fs.freereg == fs.nactvar && ScopedBlock(b, fs.nactvar) && |r| >= MAXREGS
    modifies fs`code, fs`jpc, fs`jumps, fs`pend, fs`lasttarget, fs`k, fs`h, fs`freereg, fs`maxstacksize, fs`nactvar
    ensures !ok ==> fs.AtLimit() || BlockVars(b, old(fs.nactvar)) > MAXVARS
    ensures ok ==> Settled(fs, old(fs.nactvar), old(fs.View()), old(fs.k), {})
    ensures ok && fs.k <= env.k ==> var o := old(Out(fs.View(), env, r));
      Ran(o, Out(fs.View(), env, r), RunInner(b, env.up, Locals(o, old(fs.nactvar))))
    decreases b, 1
  {
    hide WF, Frame, IsList, NoDup, Out, ScopedBlock;
    ghost var s := fs.View();
    var n := fs.nactvar;
    OutOk(s, env, r);
    ok := CompileStats(fs, b, env, r);
    if ok {
      LeaveBlock(fs, n);
    }
  }

  // statlist.
  method CompileStats(fs: FuncState, b: Block, ghost env: Env, ghost r: Regs) returns (ok: bool)
    requires fs.Valid() && fs.freereg == fs.nactvar && ScopedBlock(b, fs.nactvar) && |r| >= MAXREGS
    modifies fs`code, fs`jpc, fs`jumps, fs`pend, fs`lasttarget, fs`k, fs`h, fs`freereg, fs`maxstacksize, fs`nactvar
    ensures !ok ==> fs.AtLimit() || BlockVars(b, old(fs.nactvar)) > MAXVARS
    ensures ok ==> Settled(fs, old(fs.nactvar) + Added(b), old(fs.View()), old(fs.k), {})
    ensures ok && fs.k <= env.k ==> var o := old(Out(fs.View(), env, r));
      Ran(o, Out(fs.View(), env, r), RunBlock(b, env.up, Locals(o, old(fs.nactvar))))
    decreases b, 0
  {
    hide WF, Frame, Out, Ran, Locals, RunStat, RunBlock, ScopedStat, ScopedBlock, IsList, Adds;
    ghost var s, n := fs.View(), fs.nactvar;
    OutOk(s, env, r);
    ScopedParts(b, n);
    match b {
      case Done =>
        ok := true;
        SameFrame(s);
        NothingRan(Out(s, env, r), env.up, n);
      case Then(first, rest) =>
        ok := CompileOne(fs, first, env, r);
        if !ok {
          return;
        }
        ghost var s1 := fs.View();
        ok := CompileStats(fs, rest, env, r);
        if ok {
          FrameTrans(s, s1, fs.View(), {}, {}, {});
          if fs.k <= env.k {
            StatThenRest(first, rest, env, Out(s, env, r), Out(s1, env, r), Out(fs.View(), env, r), n);
          }
        }
    }
  }

  lemma ScopedParts(b: Block, n: nat)
    requires ScopedBlock(b, n)
    ensures b.Then? ==> ScopedStat(b.first, n) && ScopedBlock(b.rest, n + Adds(b.first))
  {}

  lemma NothingRan(o: Outcome, up: seq<Value>, n: nat)
    requires o.Fall? ==> |o.r| >= n
    ensures Ran(o, o, RunBlock(Block.Done, up, Locals(o, n)))
  {}

  lemma StatThenRest(s: Stat, rest: Block, env: Env, o: Outcome, o1: Outcome, o2: Outcome, n: nat)
    requires Ran(o, o1, RunStat(s, env.up, Locals(o, n))) && (o.Fall? ==> |o.r| >= n)
    requires Ran(o1, o2, RunBlock(rest, env.up, Locals(o1, n + Adds(s))))
    ensures Ran(o, o2, RunBlock(Then(s, rest), env.up, Locals(o, n)))
  {
    if o.Fall? {
      StatAdds(s, env.up, Locals(o, n));
      if o1.Fall? { HoldsLocals(o, o1, RunStat(s, env.up, Locals(o, n)).value); }
    }
  }

  lemma HoldsLocals(o: Outcome, o': Outcome, q: seq<Value>)
    requires Holds(o, o', q)
    ensures Locals(o', |q|) == q && |q| <= |o'.r|
  {}

  lemma StatAdds(s: Stat, up: seq<Value>, r: seq<Value>)
    ensures var q := RunStat(s, up, r); q.Some? ==> |q.value| == |r| + Adds(s)
  {}

  lemma {:induction false} BlockAdds(b: Block, up: seq<Value>, r: seq<Value>)
    ensures var q := RunBlock(b, up, r); q.Some? ==> |q.value| == |r| + Added(b)
  {
    match b {
      case Done =>
      case Then(s, rest) =>
        StatAdds(s, up, r);
        var q := RunStat(s, up, r);
        if q.Some? { BlockAdds(rest, up, q.value); }
    }
  }

  // statement.
  method CompileOne(fs: FuncState, s: Stat, ghost env: Env, ghost r: Regs) returns (ok: bool)
    requires fs.Valid() && fs.freereg == fs.nactvar && ScopedStat(s, fs.nactvar) && |r| >= MAXREGS
    modifies fs`code, fs`jpc, fs`jumps, fs`pend, fs`lasttarget, fs`k, fs`h, fs`freereg, fs`maxstacksize, fs`nactvar
    ensures !ok ==> fs.AtLimit() || StatVars(s, old(fs.nactvar)) > MAXVARS
    ensures ok ==> Settled(fs, old(fs.nactvar) + Adds(s), old(fs.View()), old(fs.k), {})
    ensures ok && fs.k <= env.k ==> var o := old(Out(fs.View(), env, r));
      Ran(o, Out(fs.View(), env, r), RunStat(s, env.up, Locals(o, old(fs.nactvar))))
    decreases s, 0
  {
    hide WF, Frame, IsList, NoDup, Out, Ran, Locals, RunInner, RunArms, ScopedBlock, ScopedArms, Scoped;
    match s {
      case Declare(n) =>
        ok := CompileDeclare(fs, n, env, r);
      case Local(x) =>
        ok := CompileLocal(fs, x, env, r);
      case Assign(v, x) =>
        ok := CompileAssign(fs, v, x, env, r);
      case Do(b) =>
        ok := CompileInner(fs, b, env, r);
      case If(arms) =>
        EmptyList(fs.code);
        NoMembers();
        ok := CompileArms(fs, arms, NO_JUMP, [], env, r);
        OnlyRan(old(Out(fs.View(), env, r)), Out(fs.View(), env, r), RunArms(arms, env.up, Locals(old(Out(fs.View(), env, r)), old(fs.nactvar))));
    }
  }

  lemma OnlyRan(o: Outcome, o': Outcome, q: Option<seq<Value>>)
    ensures RanArms(o, o', [], q) ==> Ran(o, o', q)
  {}

  // ifstat: the list of escapes comes to the end.
  method CompileArms(fs: FuncState, a: Arms, escape: int, ghost esc: seq<nat>, ghost env: Env, ghost r: Regs) returns (ok: bool)
    requires fs.Valid() && fs.freereg == fs.nactvar && ScopedArms(a, fs.nactvar) && |r| >= MAXREGS
    requires IsList(fs.code, escape, esc) && NoDup(esc) && Members(esc) <= fs.pend
    modifies fs`code, fs`jpc, fs`jumps, fs`pend, fs`lasttarget, fs`k, fs`h, fs`freereg, fs`maxstacksize, fs`nactvar
    ensures !ok ==> fs.AtLimit() || ArmVars(a, old(fs.nactvar)) > MAXVARS
    ensures ok ==> Settled(fs, old(fs.nactvar), old(fs.View()), old(fs.k), Members(esc))
    ensures ok && fs.k <= env.k ==> var o := old(Out(fs.View(), env, r));
      RanArms(o, Out(fs.View(), env, r), esc, RunArms(a, env.up, Locals(o, old(fs.nactvar))))
    decreases a, 0
  {
    hide WF, Frame, IsList, NoDup, Members, Out, Ran, RanArms, RanPart, Locals, RunInner, ScopedBlock, Scoped, Here;
    ghost var s, n := fs.View(), fs.nactvar;
    OutOk(s, env, r);
    match a {
      case End =>
        ok := PatchHere(fs, escape, esc, env, r);
        EscapesEnd(Out(s, env, r), Out(s, env, r), esc, Some(Locals(Out(s, env, r), n)), n);
      case Else(b) =>
        ok := CompileInner(fs, b, env, r);
        if !ok {
          return;
        }
        ghost var s1 := fs.View();
        HoldList(s, s1, {}, escape, esc);
        FrameWith(s, s1, {}, Members(esc));
        assert Members(esc) + {} == Members(esc);
        ok := PatchHere(fs, escape, esc, env, r);
        if ok {
          FrameTrans(s, s1, fs.View(), Members(esc), Members(esc), {});
          if fs.k <= env.k { EscapesEnd(Out(s, env, r), Out(s1, env, r), esc, RunInner(b, env.up, Locals(Out(s, env, r), n)), n); }
        }
      case Test(c, b, rest) =>
        var escape';
        ghost var esc';
        ok, escape', esc' := CompilePart(fs, c, b, !rest.End?, escape, esc, env, r);
        if !ok {
          return;
        }
        ghost var s1 := fs.View();
        ok := CompileArms(fs, rest, escape', esc', env, r);
        if ok {
          FrameTrans(s, s1, fs.View(), Members(esc), Members(esc'), {});
          if fs.k <= env.k { PartThenRest(c, b, rest, env, Out(s, env, r), Out(s1, env, r), Out(fs.View(), env, r), esc, esc', n); }
        }
    }
  }

  // The escapes come here, after the last part.
  lemma EscapesEnd(o: Outcome, o1: Outcome, esc: seq<nat>, q: Option<seq<Value>>, n: nat)
    requires Ran(o, o1, q) || (o1 == o && (o.Fall? ==> |o.r| >= n) && q == Some(Locals(o, n)))
    ensures RanArms(o, Here(o1, esc), esc, q)
  {}

  lemma PartThenRest(c: Expr, b: Block, rest: Arms, env: Env, o: Outcome, o1: Outcome, o2: Outcome, esc: seq<nat>, esc': seq<nat>, n: nat)
    requires RanPart(c, b, !rest.End?, env, o, o1, esc, esc', n) && (o.Fall? ==> |o.r| >= n)
    requires RanArms(o1, o2, esc', RunArms(rest, env.up, Locals(o1, n)))
    ensures RanArms(o, o2, esc, RunArms(Arms.Test(c, b, rest), env.up, Locals(o, n)))
  {
    var r := Locals(o, n);
    if o.Fall? && o1.Fall? {
      var v := Eval(c, env.up, r);
      HoldsLocals(o, o1, if IsFalse(v.value) then r else RunInner(b, env.up, r).value);
    }
  }

  // body and mainfunc: a whole function, whose parameters are its first local variables.
  // Its code runs to the end, where the instruction to return comes, with the values that
  // the language defines for the local variables, or raises the error. A stack frame of
  // the size that the function states is enough for it.
  method CompileFunction(params: nat, b: Block, ghost env: Env, ghost r: Regs) returns (ok: bool, fs: FuncState)
    requires ScopedBlock(b, params)
    ensures fresh(fs) && (!ok ==> fs.AtLimit() || BlockVars(b, params) > MAXVARS)
    ensures ok ==> fs.Valid() && params <= MAXVARS
    ensures ok ==> fs.pend == {} && fs.jumps == []  // no jump is left without a target
    ensures ok ==> 2 <= fs.maxstacksize < MAXREGS && params <= fs.maxstacksize && AllWithin(fs.code, fs.maxstacksize)
    ensures ok && fs.k <= env.k && |r| >= fs.maxstacksize ==>
      Ran(Fall(r), Exec(fs.code, env, {}, 0, r), RunBlock(b, env.up, Locals(Fall(r), params)))
  {
    hide WF, Frame, IsList, NoDup, Ran, RunBlock, ScopedBlock, Locals, Exec, InFrame, AllWithin, Added;
    fs := new FuncState();
    ghost var s := fs.View();
    ghost var wide := r + seq(MAXREGS, i => Nil);
    if params > MAXVARS {
      return false, fs;
    }
    ok := fs.ReserveRegs(params);
    if !ok {
      return;
    }
    fs.nactvar := params;
    StartsEmpty(s, env, wide);
    ok := CompileStats(fs, b, env, wide);
    if !ok {
      return;
    }
    NonePending(s, fs.View());
    ghost var s1 := fs.View();
    DischargeOut(s1, env, wide);
    fs.JumpsIn();
    DischargedFrame(s1, fs.maxstacksize);
    ok := fs.DischargeJpc();  // at the return instruction
    if ok {
      ClosedOut(fs.View(), env, wide);
      ClosedFrame(fs.View(), fs.maxstacksize);
      if fs.k <= env.k && |r| >= fs.maxstacksize { FrameEnough(params, b, fs.code, env, r, wide[|r|..], fs.maxstacksize); }
    }
  }

  // A run with more registers shows what one with those of the frame does.
  lemma FrameEnough(params: nat, b: Block, code: seq<Instr>, env: Env, r: Regs, t: Regs, n: nat)
    requires AllWithin(code, n) && params + Added(b) <= n <= |r| && n <= BITRK
    requires Ran(Fall(r + t), Exec(code, env, {}, 0, r + t), RunBlock(b, env.up, Locals(Fall(r + t), params)))
    ensures Ran(Fall(r), Exec(code, env, {}, 0, r), RunBlock(b, env.up, Locals(Fall(r), params)))
  {
    hide Exec, RunBlock;
    assert (r + t)[..params] == r[..params];
    var q := RunBlock(b, env.up, r[..params]);
    BlockAdds(b, env.up, r[..params]);
    ExecInFrame(code, env, {}, 0, r, t, n);
    ExecKeepsFrame(code, env, {}, 0, r);
    var o := Exec(code, env, {}, 0, r);
    if q.Some? && o.Fall? {
      assert forall i :: 0 <= i < |q.value| ==> (o.r + t)[i] == o.r[i];
    }
  }

  lemma StartsEmpty(s: Code, env: Env, r: Regs)
    requires s == Code([], [], {}, 0, 0)
    ensures Out(s, env, r) == Fall(r)
  {}

  lemma NonePending(s: Code, s': Code)
    requires s == Code([], [], {}, 0, 0) && Frame(s, s', {}, {})
    ensures s'.pend == {} && s'.base == 0
  {}

  lemma ClosedOut(s: Code, env: Env, r: Regs)
    requires s.pend == {} && s.jumps == [] && s.base == 0
    ensures Out(s, env, r) == Exec(s.code, env, {}, 0, r)
  {
    assert All(s) == {};
  }
}
