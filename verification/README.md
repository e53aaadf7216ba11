# A verified model of the core of LuPi

LuPi is a Lua 5.3 interpreter with a small kernel under it. This project models the
parts of it whose correctness is hardest to see by reading, and proves what they are
for:

- **The garbage collector** (`lua/lgc.c`, with the upvalues of `lua/lfunc.c`): the
  incremental mark and sweep collector with its barriers, weak and ephemeron tables,
  finalizers, threads and shared upvalues, as a class whose fields are those of
  `global_State`, and a state machine in which program and collector take turns in any
  order. (`Gc*.dfy`)
- **The code generator** (`lua/lcode.c`, and the statements of `lua/lparser.c`):
  expressions with short-circuit evaluation and comparisons, jump lists threaded through
  the code, local variables, assignments, blocks and if statements, against the
  instructions of `lua/lvm.c`. The code does what the language defines, on every run, in
  a stack frame of the size that the function states. (`LuaVM.dfy`, `JumpCode.dfy`,
  `Code*.dfy`, `FrameSize.dfy`, `ExpMeaning.dfy`, `LuaK.dfy`, `CondCode.dfy`, `NotCode.dfy`,
  `CompareCode.dfy`, `ExpCode.dfy`, `Compile*.dfy`)
- **Tables** (`lua/ltable.c`): an array part and a hash part of chained nodes, with
  rehashing, that together are a finite map. (`Table*.dfy`)
- **The pattern matcher** (`lua/lstrlib.c`): backtracking over captures that are updated in
  place, against a list of successes, with exactly the limits on repetitions and depth
  that the code has. (`Patterns.dfy`, `Efforts.dfy`, `Matcher.dfy`)
- **The kernel's threads** (`k/scheduler.c`, `k/kipc.c` and what they call): circular lists
  threaded through the threads, servers and their clients, asynchronous requests, deferred
  calls and the timer. (`Threads.dfy`, `Kernel.dfy`, `KernelFindings.dfy`)

`dafny verify dfyconfig.toml` checks the whole project.

## How the models are built

Objects that the program updates in place are classes, and their methods change the same
fields in the same order. What a method does is stated by a function of the old state, and
properties are proved about that function.

In the collector, `Inv` is the invariant of all phases: the roots are alive, every object
is in exactly one of the lists that the sweep goes through, and either the marking
invariant holds (black objects lead to marked ones, gray ones are in a gray list, with the
exceptions that the code makes) or the sweep has done what it has passed and no live object
leads to a dead one (`Sound`). An object is `Gone` if it has been freed or has the white
that is not the current one. The key of an emptied entry counts as a reference, unless it
is tagged dead: the code reads it (`lua/lgc.c:125-129`, `lua/ltable.c:541-553`).
`stuck` are marked objects that the collector will not look at again in this cycle though
they are not in order; the program can bring that about in two ways (see Findings), and
`Inv` takes them into account, so that no operation has to be excluded from runs.

In the code generator, `env` and `r` are the environment and the registers of an arbitrary
run. They are ghost parameters: the code does not depend on them, and a contract holds for
every choice. Its hypothesis `fs.k <= env.k` says that the constants of the run begin with
those of the function.

## Runs of the collector

`GcEffects.Performed` says of every operation of the program when it is allowed, what it
does to the heap, the upvalues, the roots and the lists, which objects barriers mark, and that
nothing else changes; one that is not allowed does nothing. `GcFinalize.Stepped` says what a
step of the collector leaves alone and what it collects, and `Advances` how it gets on with
the cycle. `GcRun.Run` performs any sequence of both from any state with
the invariant, and each state of its trace follows from the one before by these.

A run ends early only where an atomic step leaves the heap unsound, and when that happens
is said of the state before the step (`GcSafety`): `SafeStep` and `UnsafeStep`, and
`StepExact`, an if and only if. `GcSafeRun.CarefulRun` starts from the initial state: if
no operation makes a table all-weak, and no object to be finalized is taken off its list
where the sweep loses its position, every run goes on to its end, and nothing that can be
reached is ever dead or freed.

`GcProgress` is about how runs get on. After an atomic step, whatever the program does in
between, enough steps of the collector come to the end of the cycle, and by then exactly the
dead objects have been freed (`SweepCompletes`, `CollectionCompletes`); by itself the
collector goes through a whole cycle in a number of steps that is bounded by the size of the
heap (`CycleCompletes`), so that the loop of `luaC_runtilstate` ends (`RunUntil`).

`Lives` is strong reachability: derivations from the roots, from what is marked already or
flagged, and from the objects with finalizers, by strong references and by values of
ephemeron entries whose keys have been derived; `Survives` does without the objects with
finalizers. What `Stays` is what lives, and the strings that tables which live keep, down to
the order in which entries are cleared. With nothing stuck this is exactly what an atomic
step keeps (`CollectsExactly`), if `ModesKept`: the all-weak tables that are listed still have
that mode. A table that has another mode since is cleared as before in this cycle, which
section 2.5.2 of the Lua 5.3 Reference Manual allows.

`GcRun.IntactSound` proves that a check which goes through the whole heap decides whether it
is sound; runs use it to see whether they can go on.

## Findings

Where the code does not keep what its documentation promises, the exact condition is proved,
and for all but the fifth there is a run that shows it: a method that starts from the
initial state.

1. *Keys of emptied entries in all-weak tables.* `traversetable` only links an all-weak
   table (`lua/lgc.c:466-467`), and `clearkeys` and `clearvalues` skip entries whose value
   is nil (`lua/lgc.c:639-673`). An unmarked key of such an entry is swept but not tagged
   dead, and is read later (`removeentry`, or the comparison of long strings).
   `GcFindings.StaleKeyRun` gets there from a new state, with a string. `GcSafety.StepExact`,
   on the state before the step: with nothing stuck, the heap is sound afterwards if and only
   if every key that is left in an emptied entry of a strongly reachable all-weak table stays
   (`KeysStay`). `SafeStep` and `UnsafeStep` are its halves, with stuck objects.
2. *A metatable for an all-weak table that is visited already.* `luaC_objbarrier` does
   nothing for a table that is gray in `allweak`, which will not be traversed again.
   `GcMutator.SetMetatable`: if `LeavesUnmarked`, a condition on the state before the call,
   the new metatable stays unmarked and the table is stuck, and otherwise nothing gets stuck.
   `GcFindings.MetatableRun` ends with a table that is in use and has a dead metatable.
3. *The sweep position is lost.* If `udata2finalize` (`lua/lgc.c:790-800`) takes the object
   whose `next` field is the sweep position while `tobefnz` is swept, the sweep goes on in
   `allgc`, and the rest of `tobefnz` stays marked. `GcFinalize.PopKeepsSweep`: the
   invariant holds without any object getting stuck if and only if not `LosesPosition`, a
   condition on the state before the call. In the next cycle a stuck object is not
   traversed: `GcLostSweep.LostSweepRun` ends with an object in use that refers to a dead
   one. A finalizer that runs a step of the collector can bring this about.
4. *Keys are hidden when a rehash runs out of memory.* `luaH_resize` grows the array part
   before it allocates the nodes (`lua/ltable.c:342-346`). If that fails, integer keys of
   the hash part that are in the new range of the array part read as nil.
   `Tables.Table.Put`: it fails if and only if a rehash is needed and its slots or nodes do
   not fit, and where the array part has grown the table is still the map it was if and only
   if no such key is `Hidden`;
   `TableFindings.LostKey` shows it on a table with two entries.
5. *Too many integer keys.* With more than 2^30 of them, and only then, the loop of
   `computesizes` goes on past its counters, as `twotoi` wraps around to zero
   (`lua/ltable.c:228`): `TableSizes.TwotoiWraps`, on the index at which that loop stops. There is
   no run, as so many keys need more memory than the 32-bit targets have.
6. *Yielding does not put a thread last.* `thread_yield` (`k/scheduler.c:58-64`) inserts
   the thread before the last one. `Kernel.YieldsLast`: it is last if and only if there is
   at most one other; `KernelFindings.YieldRun` has three.
7. *The newest client is served first.* `blockedClientList->prev` (`k/kipc.c:100`) is the
   newest client, not the oldest one, as `ipc_connectToServer` puts a client before the
   head, which is last in the circle. `Kernel.SuperPage.RequestServerMsg`: the client chosen
   is the oldest one if and only if it is alone, and a client in service goes on if and only
   if none has connected after it. `KernelFindings.ServeRun` has two clients.
8. *Completed requests are counted in one byte* (`k/inc/k.h:110`, `k/process.c:375`).
   `KernelFindings.CountRun`: after any number of completions the thread is told of them
   modulo 256, so all are reported if and only if there are fewer; `KernelFindings.LostRun`: after
   256 it waits, and has been told of none.

The assertion in `atomic` that no table is in `weak` or `ephemeron` (`lua/lgc.c:990`) is
not used: tables that are traversed between the end of propagation and the atomic step are
put in these lists. The sweep and the atomic step are proved without it.

## Model

| member | source | states |
|---|---|---|
| GcRun.Run | lua/lgc.c:1048-1101 | For every sequence of operations of the program and steps of the collector, from any state with the invariant: each state of the run follows from the one before as `Performed` says of the operation; in all but perhaps the last the invariant holds and all that can be reached is alive; the run goes on to its end unless its last operation was an atomic step after which the heap is not sound. |
| GcRun.NewState | lua/lstate.c:295-338 | The initial state, with one thread whose stack is empty, no registry and nothing fixed, has the invariant, so that runs start from it. |
| GcRun.Do | lua/lgc.h:15-24 | Every operation (stores, stacks, upvalues, creation, finalizers, metatables, registry, steps of the collector) does what `Performed` says, to the heap, upvalues, roots and lists and to nothing else, and keeps the invariant, except an atomic step that leaves the heap unsound. |
| GcProgress.SweepCompletes | lua/lgc.c:1032-1045 | For every run that begins after marking: if the steps of the collector that handle an object are at least as many as what is left to be swept and finalized, and one more for each object that gets a finalizer meanwhile, the run comes to the end of the cycle. The heap then has exactly the objects that were not dead in the beginning, and those that were created or found again as strings. |
| GcProgress.CollectionCompletes | lua/lgc.c:1048-1101 | For every run that begins with an atomic step, nothing stuck, and has enough steps of the collector after it, twice the number of objects and five and one for each new finalizer: it comes to the end of the cycle, and the heap then has exactly the objects that were strongly reachable before the atomic step, the strings that their tables keep, and those that were created or found again since. |
| GcProgress.CycleCompletes | lua/lgc.c:1048-1101 | In every run of the collector alone, from any state with the invariant, that has more steps than a quadratic bound in the number of objects, a cycle comes to its end. |
| GcProgress.RunUntil | lua/lgc.c:1108-1112 | From any state with the invariant and for any states asked for, if one of them is not the inside of the atomic step: the loop ends, with a trace of steps none of which begins in such a state, and in one of them, unless an atomic step has left the heap unsound. |
| GcProgress.OpGoesOn | lua/lgc.c:734-751 | Between marking and the end of a cycle, every operation and step: no object dies, what is dead or freed stays so unless it is brought back, and there is no more left to be done than before, less after a step, and one more at most after an object has got a finalizer. |
| GcSafeRun.CarefulRun | lua/lgc.h:15-24 | From the initial state: if no operation makes a table all-weak and no finalizable object is taken off its list where the sweep loses its position, the run goes on to its end, the invariant holds in every state and what can be reached is alive in every state. |
| GcSafeRun.SafeTrace | lua/lgc.c:1048-1101 | By induction over any run that begins with nothing stuck, no all-weak table and, while marking, an empty list `allweak`: these hold in every state, and the invariant after every step of the collector. |
| GcSafeRun.ServedRun | lua/lgc.c:985-1029 | Any run from any state with the invariant goes on to its end if at every atomic step what stuck objects refer to stays, and so does every key that is left in an emptied entry of a strongly reachable all-weak table. |
| GcSafety.SurvivorLasts | lua/lgc.c:985-1029 | Whatever is strongly reachable without finalizers when an atomic step begins is alive after it, and its tables have lost only entries with a key or value that is not; if listed all-weak tables still have that mode, and not by way of stuck objects. |
| GcSafety.DerivedReached | lua/lgc.c:608-623 | By induction over a derivation, by strong references and by values of ephemeron entries whose keys come before or are strings: a set that is closed under these and has all to start from has every object of the derivation. |
| GcSafety.DoomedGone | lua/lgc.c:985-1029 | What some set does not contain that is closed under the references marking may follow, and has the roots, the values of flagged open upvalues and the finalizable objects, is collected by the step, also with stuck objects; unless a table holds it as a string. |
| GcSafety.LivingStays | lua/lgc.c:1012-1017 | What is strongly reachable, also from objects with finalizers, is alive after an atomic step, with all it refers to otherwise than weakly; and so are the strings that such tables keep: in array parts, as keys of ephemeron entries, as weak values, and in those entries of all-weak tables that are not emptied before they are looked at. |
| GcSafety.KeptClosed | lua/lgc.c:608-623 | What is strongly reachable, with the strings that traversals mark, is closed under the references marking may follow: before objects are separated, and with the finalizable objects after that. |
| GcSafety.CollectsExactly | lua/lgc.c:985-1029 | For every object and every state with the invariant and nothing stuck in which listed all-weak tables have kept their mode: it is dead or freed after the atomic step if and only if it is neither strongly reachable, from the roots or an object with a finalizer, nor a string that such a table keeps. |
| GcSafety.SafeStep | lua/lgc.c:466-467 | An atomic step keeps the invariant if what stuck objects refer to stays, and so does every key that is left in an emptied entry of a strongly reachable all-weak table. |
| GcSafety.UnsafeStep | lua/lgc.c:639-652 | It does not if a strongly reachable all-weak table has such an entry, or a strongly reachable stuck object a metatable or user value, and that does not stay. |
| GcSafety.StepExact | lua/lgc.c:466-467 | With nothing stuck: the step keeps the invariant if and only if every key stays that is left in an emptied entry of a strongly reachable all-weak table, strings among them. |
| GcMachine.ReachableAlive | lua/lgc.h:15-24 | Under the invariant, in every phase: the object at the end of any path from a root, through strong and weak references, upvalues and keys of emptied entries that are not tagged dead, has not been freed and is not dead. |
| GcMachine.InvSound | lua/lgc.h:54-61 | In the marking phases and outside of them, no object that is not dead refers to a dead or freed one, and no root does. |
| GcMark.GlobalState.ReallyMark | lua/lgc.c:235-283 | Marking a white object that has to be marked keeps the marking invariant and the object is not white afterwards; strings turn black, objects other than userdata turn gray and are linked; nothing else is marked but what is in every set that has the object and, with a userdata, its metatable and user value. |
| GcMark.GlobalState.TraverseWeakValue | lua/lgc.c:361-381 | A table with weak values that was gray and in no list is in order afterwards: its keys are marked, and it is in a list that will be looked at again if a value may have to be cleared; nothing is lost but dead entries. |
| GcMark.GlobalState.TraverseEphemeron | lua/lgc.c:394-430 | The same of an ephemeron table. If it reports that nothing was marked, no entry has a marked key and an unmarked value; if it reports that something was, there are fewer white objects. |
| GcMark.GlobalState.TraverseStrongTable | lua/lgc.c:433-448 | The table satisfies what is demanded of a black one: no unmarked keys, but for those tagged dead, and no unmarked values. |
| GcMark.GlobalState.TraverseTable | lua/lgc.c:451-471 | A table just made black is in order afterwards, whatever its mode; an all-weak table is only linked. |
| GcMark.GlobalState.TraverseLclosure | lua/lgc.c:514-527 | A closure just made black is in order afterwards: prototype and values of closed upvalues are marked, open upvalues are flagged or, in the atomic phase, marked too. |
| GcMark.GlobalState.TraverseThread | lua/lgc.c:530-552 | The used part of a stack is marked; in the atomic phase the rest is cleared and the thread is put back in `twups` if it has open upvalues. |
| GcMark.GlobalState.PropagateMark | lua/lgc.c:559-600 | One gray object is traversed, threads go to `grayagain`; the invariant is kept. |
| GcMark.GlobalState.PropagateAll | lua/lgc.c:603-605 | The gray list is emptied; ends because every step marks something or shortens the list. |
| GcAtomic.RemarkUpvals | lua/lgc.c:312-331 | Afterwards the marking invariant holds in its stronger form, in which flags do not count: the value of every upvalue that was flagged is marked, or its thread is; tables lose nothing. |
| GcConverge.ConvergeEphemerons | lua/lgc.c:608-623 | Ends, with no entry of a listed ephemeron table that has a marked key and an unmarked value, having marked only what every set contains that is closed under strong references and under "key forces value". |
| GcConverge.LeastClosed | lua/lgc.c:608-623 | The least of these sets exists and is closed itself. |
| GcConverge.PropagateOne | lua/lgc.c:559-600 | A step of propagation marks only what every closed set contains. |
| GcClear.ClearKeys | lua/lgc.c:639-650 | Afterwards no live entry of a listed table has an unmarked key; entries are lost only if their key was unmarked, and tables that are not listed do not change. |
| GcClear.ClearValues | lua/lgc.c:657-674 | Afterwards no listed table has an unmarked value in either part; entries are lost only if their value was unmarked, and tables that are not listed do not change. |
| GcMark.GlobalState.RemoveEntry | lua/lgc.c:125-129 | An emptied entry with an unmarked key gets a dead key, others stay as they are. |
| GcAtomic.SeparateToBeFnz | lua/lgc.c:880-895 | Exactly the white objects of `finobj` move to the end of `tobefnz`, in order, and the rest stay in order. |
| GcAtomic.Resurrect | lua/lgc.c:1012-1017 | The objects to be finalized are those that were unmarked before, and they and what they lead to are marked afterwards; convergence again. |
| GcAtomic.SelectMembers | lua/lgc.c:880-895 | Membership in the two lists after the separation, by colour. |
| GcAtomic.MarkAndClear | lua/lgc.c:985-1024 | The atomic step up to the flip: `b` has the roots, what was marked and what flagged upvalues hold, is closed under strong references of objects that are not stuck (if listed all-weak tables have kept their mode), and is marked in the end; so is the set of all marked objects in the end, with respect to the references before the step; before finalizable objects are separated, and in the end, only objects of the bounds are marked, and exactly the strings that entries of all-weak tables have marked by then; weak tables are cleared, and entries are lost only if their key or value is not in `b`, with their keys tagged unless they are marked. |
| GcCycle.AtomicStep | lua/lgc.c:1065-1073 | The state `GCSatomic`: what is in `b` (see above) survives unchanged but for entries that weak tables may lose, and so do finalizable objects and what they refer to; everything outside a closed set that contains roots, finalizable objects and values of flagged upvalues is dead, but for exactly the strings that entries of all-weak tables have marked; objects to be finalized are those that were not reachable; the heap is sound afterwards if and only if nothing was overlooked (`GcSafety` says when, of the state before). |
| GcFinalize.SingleStep | lua/lgc.c:1048-1101 | Each step, by the state it is in: the next state; an atomic step collects as above, and every other step changes nothing that is alive but unused slots and dead keys, creates nothing, gets nothing stuck and keeps the invariant. Each gets on with the cycle: the roots are marked, and only what has to be; a gray object is traversed, so that more is marked or one is left less; the sweep goes on by as many objects as it may; the main thread is swept; the first object of `tobefnz` leaves it and is the one to be finalized, and with none left the cycle is over. |
| GcFinalize.CallFinStep | lua/lgc.c:1089-1098 | The first object of `tobefnz` is taken off to be finalized, or if there is none the cycle is over; nothing else changes. |
| GcCycle.PauseStep | lua/lgc.c:1051-1056 | A new cycle starts with the gray lists reset and all roots marked, and only what every closed set with the roots contains is marked; no list of objects changes; with few roots the gray lists are given. |
| GcCycle.PropagateStep | lua/lgc.c:1057-1064 | One gray object: either more is marked or the gray list is the rest of what it was; only what every closed set contains is marked; the next state begins exactly when the gray list is empty. |
| GcCycle.SweepStep | lua/lgc.c:1032-1045 | At most `count` objects from the sweep position on are swept, and the next state begins exactly at the end of the list. |
| GcSweep.SweepList | lua/lgc.c:734-751 | Dead objects of the stretch are freed, the others are white; nothing that is alive changes; the position returned is that of the next object. |
| GcSweep.SweepToLive | lua/lgc.c:757-766 | Sweeps up to and including the next object that is not dead, and leaves no more to be swept than before. |
| GcSweep.SweepingSound | lua/lgc.c:734-751 | Sweeping neither makes nor breaks soundness of the heap. |
| GcCycle.FinishSweep | lua/lgc.c:1083-1088 | The main thread, which is in no list, is swept last; nothing else changes. |
| GcCycle.AbandonMarking | lua/lgc.c:1163-1173 | A full collection that begins while marking sweeps everything back to white and frees nothing. |
| GcFinalize.Udata2Finalize | lua/lgc.c:790-800 | The first object of `tobefnz` goes to the head of `allgc`, white if sweeping; the new sweep position and the objects that the sweep then misses, exactly; the invariant is kept. |
| GcFinalize.PopKeepsSweep | lua/lgc.c:790-800 | The invariant holds without any object getting stuck, that is, all that is on the list will be swept, if and only if it is not the case that the sweep position is in the object that moves and another one behind it has not been swept. |
| GcObjects.CheckFinalizer | lua/lgc.c:902-921 | An object in `allgc` moves to the head of `finobj` and nothing else changes, one that has moved before does not; while sweeping it is made white first, and if the sweep position is in it the sweep goes on through the next object that is not dead, and no further; the invariant is kept. |
| GcObjects.NewObject | lua/lgc.c:208-216 | A new object is white and first in `allgc`, in every phase. |
| GcObjects.Fix | lua/lgc.c:194-201 | The string that has just been created leaves `allgc` for the fixed objects, between cycles. |
| GcObjects.InternHit | lua/lstring.c:167-182 | A short string that is found in the string table is white as new objects are if it was dead, and nothing else changes. |
| GcObjects.SetRegistry | lua/lgc.c:996-998 | The registry changes without a barrier, in every phase, and the invariant is kept. |
| GcStore.Barrier | lua/lgc.c:155-164 | Afterwards the object does not lead from black to the value as white. Nothing changes unless it would; then, while marking, the value is marked, and nothing else but what a userdata leads to, and otherwise the object is made white; all that is needed before the store. |
| GcStore.BarrierBack | lua/lgc.c:171-176 | The same for tables: a black table that gets a white value is gray and first in `grayagain`, in any other case nothing changes; nothing is marked. |
| GcUpvalues.UpvalBarrier | lua/lgc.c:185-191 | A value stored in a closed upvalue is marked in the marking phases, and nothing else but what a userdata leads to; in others nothing changes. |
| GcMutator.SetArray | lua/lvm.h:81-93 | A store to an element of the array part, with its barrier, changes that element only and keeps the invariant. |
| GcMutator.SetNode | lua/lvm.h:81-93 | A store to the value of a key that the table has. |
| GcMutator.InsertKey | lua/ltable.c:487-490 | A key is written into a free node, with a barrier. |
| GcMutator.Rearrange | lua/ltable.c:335-367 | A rehash moves entries without barriers. |
| GcMutator.SetMetatable | lua/lapi.c:845-882 | The metatable of a table or userdata changes; the barrier leaves the metatable unmarked and the table is stuck if `LeavesUnmarked`, and otherwise nothing gets stuck; the invariant is kept. |
| GcMutator.Resize | lua/ldo.c:177-190 | The stack is reallocated and its top changes; slots that were there keep their values, new ones are nil; nothing else changes. |
| GcUpvalues.SearchUpval | lua/lfunc.c:61-67 | In a list of open upvalues with strictly descending slots: found if and only if there is one for the slot, otherwise the place that keeps the order. |
| GcUpvalues.FindUpval | lua/lfunc.c:57-80 | The open upvalue of a slot: the one there is, when nothing changes, and a new one in its place in the list only if there is none; at most one for each slot. |
| GcUpvalues.CloseUpvals | lua/lfunc.c:83-96 | Exactly the upvalues at or above the level are closed, with the values they had, and leave the list; every upvalue denotes what it did; only these values are marked. |
| GcUpvalues.SetUpval | lua/lvm.c:840-845 | A store to an open upvalue is one to the stack slot and nothing else; one to a closed upvalue changes its value, with a barrier. |
| GcUpvalues.JoinUpval | lua/lapi.c:1286-1299 | A closure shares an upvalue of another; it is flagged if open, and its value is marked if need be when closed. |
| GcUpvalues.InitUpval | lua/lvm.c:622-641 | A closure that has just been made gets its upvalues. |
| GcFindings.StaleKeyRun | lua/lgc.c:466-467 | A run from the initial state to a path from the registry to a dead string: the key of an emptied entry of an all-weak table. |
| GcFindings.MetatableRun | lua/lgc.h:126-128 | A run from the initial state to a table that is reachable and has a dead metatable. |
| GcLostSweep.LostSweepRun | lua/lgc.c:790-800 | A run from the initial state, over two cycles, to a reachable userdata that refers to a dead table, by way of a lost sweep position. |
| CompileBlock.CompileFunction | lua/lparser.c:776-795 | A function with parameters and a body of declarations, assignments, blocks and if statements: in every run of its code from the first instruction that has at least the registers of the stack frame it asks for, the local variables end with the values that the language defines, or the error is raised that it defines; no instruction names a register outside of the frame, which has at least two; no jump is left open. It fails only at the limits on code, registers, constants and local variables. |
| CompileBlock.FrameEnough | lua/ldo.c:370-371 | A run with the registers of the frame ends as one with more does, and has all the local variables. |
| FrameSize.ExecInFrame | lua/ldo.c:370-371 | By induction over any run: code whose instructions name registers below n neither reads nor changes the others, whatever they hold. |
| FrameSize.PatchedFrame | lua/lcode.c:148-177 | A test whose register is not known yet stands before a pending jump; patching jumps gives it a register of the frame, or makes it a test without one. |
| CompileBlock.CompileStats | lua/lparser.c:592-601 | The same for a list of statements after any code so far: runs that had left are not affected, the others do what the statements mean; the local variables of the list are active afterwards, and no register is held besides. |
| CompileBlock.CompileArms | lua/lparser.c:1415-1426 | An if statement of any number of parts: exactly one body runs, by the conditions in order, and all escapes end behind it. |
| CompileBlock.CompilePart | lua/lparser.c:1380-1412 | A condition and its body; with more parts to come, runs through the body leave by the list of escapes. |
| CompileBlock.CloseArm | lua/lparser.c:1408-1411 | The jump over the other parts joins the escapes together with the jumps that were to come here, and the exits of the condition come here. |
| CompileBlock.CompileDeclare | lua/lparser.c:1440-1457 | New local variables without values are nil, also when the instruction is merged with one before it. |
| CompileBlock.CompileLocal | lua/lparser.c:1440-1457 | A new local variable with the value of the expression. |
| CompileBlock.CompileAssign | lua/lcode.c:592-598 | Assignment to a local variable that the expression may use. |
| CompileBlock.PartThenRest | lua/lparser.c:1415-1426 | The meanings of the first part and of the rest add up to that of the statement. |
| CompileStat.ExpToNextReg | lua/lcode.c:520-525 | Any expression of the language, compiled after any code: the next register gets its value in every run, registers below are kept, and no jumps of the expression are left. |
| CompileStat.StoreLocal | lua/lcode.c:592-598 | The value goes to the register of a local variable, which may occur in the expression. |
| CompileStat.Condition | lua/lparser.c:1175-1182 | Runs go on if the condition is true and leave through one of the listed jumps if it is false or nil; the list is returned. |
| CompileExp.Compile | lua/lparser.c:1043-1070 | Every expression: the descriptor and its two jump lists denote the value of the expression in every run, whatever the code before. |
| CompileExp.EvalLocals | lua/lparser.c:293-303 | The value of an expression depends only on the local variables that are active. |
| ExpCode.Join | lua/lcode.c:885-903 | `and` and `or`: the jump lists of the operands are joined, with the meaning of the operator. |
| CompareCode.CodeComp | lua/lcode.c:825-838 | Comparisons, with operands in registers or constants, and exchanged for > and >=. |
| NotCode.CodeNot | lua/lcode.c:702-734 | Negation: constants are folded, jump lists exchanged and their values removed. |
| NotCode.RemoveValues | lua/lcode.c:161-164 | All jumps of a list lose their values and nothing else changes. |
| CondCode.GoIfTrue | lua/lcode.c:655-676 | Execution goes on if the value is true, and otherwise leaves with it. |
| CondCode.GoIfFalse | lua/lcode.c:679-699 | The opposite. |
| CondCode.JumpOnCond | lua/lcode.c:640-652 | A test of the value and a jump, where a NOT just generated is taken back. |
| CondCode.InvertJump | lua/lcode.c:632-637 | The condition of a comparison is negated. |
| LuaK.Exp2Reg | lua/lcode.c:496-517 | Whatever the descriptor and its jump lists, the register has the value at the end, with loads of booleans for jumps that carry none. |
| LuaK.LoadWithBools | lua/lcode.c:502-514 | Jumps without a value land on the load of their boolean, those with one behind both loads. |
| LuaK.Exp2RK | lua/lcode.c:556-589 | A constant operand, if there is room, or else a register. |
| LuaK.Discharge2Reg | lua/lcode.c:445-485 | The value is put in a register by one instruction for its kind. |
| CodeGen.FuncState.constructor | lua/lparser.c:523-543 | A new function: no code, no pending jumps, two registers. |
| CodeGen.FuncState.CheckStack | lua/lcode.c:278-286 | The size of the frame grows to what is needed and never shrinks, so that the registers of all the code so far stay in it; fails exactly at the limit. |
| CodeGen.FuncState.ReserveRegs | lua/lcode.c:289-292 | The next registers are in use, and in the frame. |
| CodeGen.FuncState.Concat | lua/lcode.c:215-226 | The lists are joined in order by changing the last jump of the first. |
| CodeGen.FuncState.PatchToHere | lua/lcode.c:209-212 | The jumps of a list wait for the next instruction; only an offset of a pending jump changes. |
| CodeGen.FuncState.Jump | lua/lcode.c:76-83 | A new jump, which takes over those that were to come here. |
| CodeGen.FuncState.PatchListAux | lua/lcode.c:167-177 | Every jump of a list is patched as the function over the list says. |
| CodeGen.FuncState.NeedValue | lua/lcode.c:139-145 | True if and only if some jump of the list has no value. |
| CodeGen.FuncState.LoadNils | lua/lcode.c:54-73 | The registers are nil afterwards, whether or not the instruction is merged with the one before, which only happens if no jump comes between. |
| CodeGen.FuncState.AddK | lua/lcode.c:313-334 | The index denotes a constant that is equal; old constants keep their places. |
| CodeState.ToHereOut | lua/lcode.c:209-212 | Runs that leave by the listed jumps come to the end of the code instead, and others are the same. |
| CodeState.PatchedOut | lua/lcode.c:167-177 | How runs change when a list of jumps is given targets and a register. |
| CodeState.DischargeOut | lua/lcode.c:180-183 | Giving the jumps to the next position their targets changes no run. |
| CodeState.SkippingOut | lua/lcode.c:76-83 | Runs that fell through leave by the new jump. |
| CodeState.RelinkOut | lua/lcode.c:215-226 | Offsets of pending jumps do not matter for any run. |
| CodeState.CutOut | lua/lcode.c:632-652 | The last instructions can be taken off and their effect with them. |
| JumpCode.ExecPatchAll | lua/lcode.c:148-177 | Execution of patched code, by induction over the run: an exit by a jump of the list goes on at the target for values or for booleans. |
| JumpCode.ExecAppend | lua/lvm.c:766-786 | Execution of longer code is that of its beginning, and then goes on. |
| Tables.Table.Put | lua/ltable.c:591-596 | Assignment for every key, also floats with integer values, nil and NaN: a float n.0 is assigned at the integer n and any other key at itself, so that exactly the keys equal to it read the value then, and others what they did; errors are exactly for nil and NaN; it runs out of memory if and only if a rehash is needed and its slots or its nodes do not fit; then the table is as it was if there are no slots, and otherwise it is the map it was if and only if no integer key is hidden; sizes after a rehash are the optimal ones. |
| Tables.Table.Get | lua/ltable.c:570-584 | The value of a key is that in the map, or nil: at the integer n for a float n.0, and at the key itself for any other. |
| Tables.Table.Set | lua/ltable.c:591-596 | The place of a key, which is made if there is none; it resizes at most once. |
| Tables.Table.NewKey | lua/ltable.c:442-491 | A place for a new key, in every case of collision; nothing but the place changes unless a rehash is needed. |
| Tables.Table.Evict | lua/ltable.c:465-477 | A colliding node out of its main position moves to the free one, and its chain is mended. |
| Tables.Table.Rehash | lua/ltable.c:378-395 | The array part gets the largest size of which more than half is in use, counting the new key; there is room for it; nothing is lost. |
| Tables.Table.Resize | lua/ltable.c:335-367 | All entries survive a change of both sizes, in either direction; if the array part cannot grow nothing changes, and if the nodes cannot be allocated only the array part has grown. |
| Tables.GrowthHides | lua/ltable.c:342-346 | Growing the array part alone keeps the map if and only if no key is in the new range. |
| Tables.FailedValue | lua/ltable.c:342-346 | After a failed allocation every key reads as before except the hidden ones, which read as nil. |
| TableFindings.LostKey | lua/ltable.c:342-346 | A new table, two assignments and a third one without memory: a key reads as nil. |
| Tables.Table.NumUseArray | lua/ltable.c:259-282 | Counts the keys in use by slices between powers of two. |
| Tables.Table.NumUseHash | lua/ltable.c:285-298 | Adds those of the hash part, and counts all. |
| Tables.Table.GetN | lua/ltable.c:641-657 | A boundary of the map, by binary search in the array part or beyond it. |
| Tables.Table.UnboundSearch | lua/ltable.c:613-634 | A boundary beyond the array part; a linear search if doubling would overflow. |
| TableSizes.ComputeSizes | lua/ltable.c:221-240 | The loop with its wrapping counter finds the optimal size and how many keys go there, and stops within its counters. |
| TableSizes.CeilLog2 | lua/lobject.c:65-80 | The logarithm to base 2 rounded up, by shifts of eight bits and a table. |
| TableSizes.TwotoiWraps | lua/ltable.c:228-238 | The loop comes to an index past its 32 counters if and only if there are more than 2^30 keys, for instance 2^30 + 1. |
| TableNodes.InsertedOk | lua/ltable.c:478-485 | Inserting after the main position keeps all chains linear, complete and apart. |
| TableNodes.EvictedOk | lua/ltable.c:465-477 | So does moving the colliding node away. |
| TableNodes.OnePredecessor | lua/ltable.c:468-469 | A node has at most one predecessor, so that the search for it is right. |
| Matcher.MatchState.Match | lua/lstrlib.c:435-536 | The result is the first answer of the list of successes: where it ends with its captures, no match, or a malformed pattern; captures are undone on failure. It gives up as too complex if and only if the search up to that answer matches more single characters, or recurses deeper, than the limits allow, and otherwise exactly that number is taken off the limit. |
| Matcher.MatchState.FindFrom | lua/lstrlib.c:623-667 | The leftmost position with an answer, and its first answer; at all positions before there is none. Too complex if and only if the searches up to there exceed the limits; for a pattern with fewer characters than there are levels, only by repetitions. |
| Matcher.MatchState.constructor | lua/lstrlib.c:603-614 | The limits of a new search: four repetitions for each character of the subject and 100000 more, or no limit if that would overflow. |
| Efforts.Need | lua/lstrlib.c:435-536 | What the search for the first answer uses up; it never recurses deeper than the pattern has characters left. |
| Efforts.NeedGreedyDown | lua/lstrlib.c:371-383 | What greedy repetition needs is what it takes to try the rest after all the repetitions there are, one less, and so on, as far as the first answer. |
| Matcher.MatchState.MaxExpand | lua/lstrlib.c:371-383 | Counting forward and trying backward gives the first answer of greedy repetition. |
| Matcher.MatchState.MinExpand | lua/lstrlib.c:386-396 | The first answer of lazy repetition. |
| Matcher.MatchState.MatchBalance | lua/lstrlib.c:351-368 | The first position at which the delimiters are balanced. |
| Matcher.MatchState.FindClassEnd | lua/lstrlib.c:268-289 | The end of a class, or malformed. |
| Matcher.MatchState.MatchBracketClass | lua/lstrlib.c:312-332 | Membership in a set with ranges, escapes and complement. |
| Patterns.GreedyIs | lua/lstrlib.c:371-383 | An answer of greedy repetition is one of what follows after some number of repetitions. |
| Patterns.GreedyFirst | lua/lstrlib.c:371-383 | The first answer is that for the largest number of repetitions that has one. |
| Patterns.LazyFirst | lua/lstrlib.c:386-396 | ... and for lazy repetition the smallest. |
| Patterns.BalanceEnds | lua/lstrlib.c:351-368 | What the search for balance finds is balanced there and not before. |
| Kernel.SuperPage.Remove | k/scheduler.c:23-38 | A thread leaves its list, of the scheduler or of a server, all others stay rings in order, and every thread is on at most one list. |
| Kernel.SuperPage.Insert | k/scheduler.c:40-52 | A thread that is on no list is put at any place of one. |
| Kernel.SuperPage.SetState | k/scheduler.c:66-76 | Exactly the ready threads are on the ready list; a thread that becomes ready is first. |
| Kernel.SuperPage.Yield | k/scheduler.c:58-64 | The thread goes to the place before the last one, the others keep their order. |
| Kernel.YieldOrder | k/scheduler.c:58-64 | What that place is, by the number of threads. |
| Kernel.YieldsLast | k/scheduler.c:54-64 | The thread that yields is last if and only if there is at most one other. |
| KernelFindings.YieldRun | k/scheduler.c:54-64 | Three threads, in the order c, b, a; c yields, and the order is b, c, a. |
| Kernel.SuperPage.FindNextReadyThread | k/scheduler.c:5-17 | A ready thread if and only if there is one: the first in the list. |
| Kernel.SuperPage.CreateServer | k/kipc.c:63-83 | The last free slot is taken, with no clients and no request, unless the name is in use or there is none; other servers have the clients and requests they had. |
| Kernel.SuperPage.Connect | k/kipc.c:120-167 | The client is blocked at the end of the list of the server; if that has a request, it is told of the client, as by a completion, and has no request then; without the server nothing changes; other clients and the ready list are as they were, but for the server's thread if it was waiting. |
| Kernel.SuperPage.SignalServer | k/kipc.c:155-157 | The request of a server is cleared, and its thread is signalled: told at once if it waits, and first in the ready list then, or else it counts one more. |
| Kernel.SuperPage.RequestServerMsg | k/kipc.c:85-118 | What becomes of the newest client and of the request: it is released if it had been served, and otherwise served now, and the server's thread signalled. It is the oldest client if and only if it is the only one; a client in service goes on if and only if it is the last in the list. |
| KernelFindings.ServeRun | k/kipc.c:99-116 | Two clients, of which the one that came last is served. |
| Kernel.SuperPage.RequestSignal | k/process.c:373-384 | A completion is counted, or given to the thread that waits for it, which is ready then and first in the list. |
| Kernel.SuperPage.WaitForAnyRequest | k/svc.c:143-158 | A thread gets the number of completions not read yet, or waits, off the ready list. |
| KernelFindings.CountRun | k/process.c:373-384 | A ready thread gets any number of completions and then waits: it is told of their number modulo 256, or waits if that is zero; of all of them if and only if there are fewer than 256. |
| KernelFindings.LostRun | k/inc/k.h:110 | 256 completions: the thread waits for one, having been told of none. |
| Kernel.SuperPage.DoPendSv | k/scheduler_armv7m.c:196-228 | All queued calls are run, each once and in order, whatever timer interrupts, any number before each call, queue meanwhile; that is left for the next time, and there is always room for it. Every thread has been signalled once for each of its completions: if it waited it is ready and has been told; one that had a call to clean up after it is dead; threads without calls are as they were; without interrupts the ready list is given. If a reschedule was asked for, the first ready thread runs. |
| Kernel.DfcsDone | k/scheduler_armv7m.c:210-213 | By induction over any list of calls: what they make of a thread, by the number of its completions and whether it has a call to clean up after it. |
| Kernel.SuperPage.SysTick | k/scheduler_armv7m.c:230-258 | Time goes on by one, and exactly a timer that is due is completed, by one deferred call; the running thread uses a tick of its slice, and at the end of it yields and asks for a reschedule; no thread changes its state or is signalled. |
| Kernel.SuperPage.Reschedule | k/scheduler_armv7m.c:141-185 | The first ready thread runs, with a whole slice of time; none if and only if no thread is ready. |
| Kernel.SuperPage.SetTimer | k/svc.c:180-198 | A timer that is over already is completed at once: its request is cleared and the thread signalled; another thread's is not taken away, and then nothing changes. |
| Kernel.SuperPage.Exit | k/process.c:325-333 | The thread is dying, and exactly the dying threads have a deferred call to clean up after them. |

## Left out

Members whose contracts promise less than the program does:

- GcRun.Run: names of new objects and upvalues are given by the operations, and have to be new; allocation itself, the debt and pacing of the collector (`setpause`, `getdebt`, `luaC_step`), emergency collections and `luaC_fullgc` as a whole are not modelled, only its parts, `GcCycle.AbandonMarking` and `GcProgress.RunUntil`. Calls of finalizers are operations that follow in the run, between steps of the collector or in the middle of them.
- GcRun.Do: stores are modelled with their barrier before the store, which the barrier does not see. Error paths of the API are not modelled.
- GcSafety.StepExact: nothing is stuck; with stuck objects, `SafeStep` and `UnsafeStep` each say one half, and `UnsafeStep` only of what no table holds as a string.
- GcProgress.CollectionCompletes: nothing is stuck when the atomic step begins; without that, `SweepCompletes` says what is freed after the step, and `LivingStays` and `DoomedGone` each say half of what the step kills.
- GcProgress.CycleCompletes: does not bound marking while the program runs, which can go on making objects gray.
- GcFinalize.CallFinStep: one object at a time, so that a step that calls several finalizers (`runafewfinalizers`) is several steps of the model.
- GcSafety.CollectsExactly: nothing is stuck; with stuck objects, `LivingStays` and `DoomedGone` each say one half.
- GcUpvalues.CloseUpvals: reference counts of upvalues are not modelled, and upvalues are never freed; none is used after the last closure has gone.
- GcMark.GlobalState.TraverseThread: does not model shrinking of stacks (`luaD_shrinkstack`), which may happen in a traversal.
- GcCycle.AtomicStep: does not clear the cache of strings for the API (`luaS_clearcache`).
- GcObjects.Fix: strings only, and only between cycles, as its callers use it.
- GcObjects.InternHit: does not model the string table itself, only that a string found there is used again.
- GcObjects.CheckFinalizer: whether an object has a finalizer and is marked as having one is decided by the list that it is in.
- CompileBlock.CompileFunction: leaves out loops, goto and break, calls and returns, nested functions, globals and fields, multiple assignment and arithmetic; the instruction to return is not part of the code. What local variables hold after an error is not stated. Metamethods are left out, so that comparisons of other than numbers and strings raise an error.
- CompileExp.Compile: works on the tree of an expression; precedences (`subexpr`) have been applied.
- CodeGen.FuncState.AddK: strings, integers and booleans only, no floats.
- Tables.Table.Put: demands at most 2^30 integer keys when a rehash is needed; with more the code goes past its counters (Findings, 5).
- Tables.Table.GetN: demands an array part of fewer than 2^31 - 1 slots, beyond which `unbound_search` would begin with an index that is no integer.
- Tables.Table.UnboundSearch: demands a first index below 2^31 - 1, for the same reason.
- Tables.Table.Find: `luaH_getshortstr` and `luaH_getstr`, which only differ in how strings are compared, are the generic search.
- TableNodes.MainPosition: hash values are an arbitrary function of the key, so that equal keys have equal ones; floats are NaN, integers that fit, or others.
- Matcher.MatchState.Match: characters are classified as in the C locale for ASCII.
- Matcher.MatchState.constructor: the largest size is that of the 32-bit targets, 2^32 - 1.
- Matcher.MatchState.FindFrom: plain searches, positions relative to the end and the results for captures (`push_onecapture`), gmatch and gsub are not modelled.
- Kernel.SuperPage.Connect: does not check or map the shared page (`mmu_sharePage`); demands that the name is not 0, which is that of free slots, whose thread is null: the code would go on with the process of no thread.
- Kernel.SuperPage.RequestServerMsg: demands that the pointer of the request is not 0, which the code would write to when a client is waiting, and take for no request when none is.
- Kernel.SuperPage.SetTimer: demands that the pointer of the request is not 0: the code would write to it, or fail the assertion in `do_request_complete` when the timer is due.
- Kernel.SuperPage.DoPendSv: the calls and the timer of the ARMv7-M kernel; register frames, switching of stacks and interrupts of other devices are not modelled.
- Kernel.SuperPage.SysTick: demands that there is room for a deferred call if the timer is due, which `dfc_queue` asserts; the assertion on a slice that is used up is not modelled.
- Kernel.SuperPage.Reschedule: does not wait for an interrupt when no thread is ready; it can be called again.

Parts of the repository that are not modelled: `luaH_next`, whose keys are those that may
be dead; the string library other than matching, `table.sort`, `string.pack`, dump and
undump, the lexer; coroutines and calls (`lua/ldo.c`); the page allocator, memory mapping
and processes of the kernel; drivers and user programs.
