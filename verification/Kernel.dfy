// The kernel's thread lists (k/scheduler.c, k/kipc.c): the ready list and the lists of
// clients that are blocked in a server are threaded through the same links.

module Kernel {
  import opened Common
  import opened Threads

  const MAX_DFCS: nat := 4
  const NEVER: nat := 0xffff_ffff_ffff_ffff  // UINT64_MAX

  datatype Error = NoError | AlreadyExists | NotFound

  // threadExit_dfc and do_request_complete, with their arguments.
  datatype Dfc = ExitDfc(t: Thread) | CompleteDfc(t: Thread, userPtr: nat)

  class Server {
    var id: nat
    var thread: Thread?            // serverRequest.thread
    var userPtr: nat               // serverRequest.userPtr
    var blockedClientList: Thread?

    constructor ()
      ensures id == 0 && thread == null && userPtr == 0 && blockedClientList == null
    {
      id, thread, userPtr, blockedClientList := 0, null, 0, null;
    }
  }

  // What becomes of a thread that is signalled: a waiting one goes on and is told how many
  // of its requests are completed, and for any other one the completion is counted.
  ghost function Signalled(a: Account): Account {
    var c := (a.completed + 1) % 256;
    if a.state == WaitForRequest then Account(Ready, a.sent + 1, a.returned + c, 0, a.reason)
    else a.(sent := a.sent + 1, completed := c)
  }

  // The deferred calls of 'ds' have been run, in order.
  ghost function AfterDfcs(a: Account, ds: seq<Dfc>, t: Thread): Account {
    if ds == [] then a else AfterDfc(AfterDfcs(a, ds[..|ds| - 1], t), ds[|ds| - 1], t)
  }

  ghost function AfterDfc(a: Account, d: Dfc, t: Thread): Account {
    if d.t != t then a else if d.ExitDfc? then a.(state := Dead) else Signalled(a)
  }

  lemma OneMore(a: Account, ds: seq<Dfc>, d: Dfc, t: Thread)
    ensures AfterDfcs(a, ds + [d], t) == AfterDfc(AfterDfcs(a, ds, t), d, t)
  {
    assert (ds + [d])[..|ds|] == ds;
  }

  // What the calls have done to a thread, in terms of how many completions there were and
  // whether it has been cleaned up after.
  ghost predicate Done(a: Account, b: Account, n: nat, buried: bool) {
    && b.sent == a.sent + n && b.reason == a.reason && (n == 0 && !buried ==> b == a)
    && if a.state != WaitForRequest then
         b.returned == a.returned && b.state == (if buried then Dead else a.state) && b.completed == (a.completed + n) % 256
       else !buried && n > 0 ==>
         b.state == Ready && b.returned == a.returned + (a.completed + 1) % 256 && b.completed == (n - 1) % 256
  }

  lemma NextByte(x: nat)
    ensures (x % 256 + 1) % 256 == (x + 1) % 256
  {}

  lemma DoneSignal(a: Account, b: Account, n: nat, buried: bool)
    requires Done(a, b, n, buried) && a.completed < 256
    ensures Done(a, Signalled(b), n + 1, buried)
  {
    NextByte(a.completed + n);
    if n > 0 { NextByte(n - 1); }
  }

  lemma DoneBury(a: Account, b: Account, n: nat, buried: bool)
    requires Done(a, b, n, buried) && a.completed < 256
    ensures Done(a, b.(state := Dead), n, true)
  {}

  lemma DoneNothing(a: Account)
    requires a.completed < 256
    ensures Done(a, a, 0, false)
  {}

  // Completions that find a thread waiting make it ready, and the others are counted; the
  // thread that has a call to clean up after it is dead, as it was dying.
  lemma {:induction false} DfcsDone(a: Account, ds: seq<Dfc>, t: Thread)
    requires a.completed < 256
    ensures Done(a, AfterDfcs(a, ds, t), Completions(ds, t), ExitDfc(t) in ds)
  {
    hide Done, Signalled;
    if ds == [] {
      DoneNothing(a);
    } else {
      var rest, d := ds[..|ds| - 1], ds[|ds| - 1];
      DfcsDone(a, rest, t);
      assert ds == rest + [d];
      if d.t == t && d.ExitDfc? {
        DoneBury(a, AfterDfcs(a, rest, t), Completions(rest, t), ExitDfc(t) in rest);
      } else if d.t == t {
        DoneSignal(a, AfterDfcs(a, rest, t), Completions(rest, t), ExitDfc(t) in rest);
      }
    }
  }

  // A waiting thread that is signalled comes first in the ready list.
  ghost function Front(d: Dfc, st: State): seq<Thread> {
    if d.CompleteDfc? && st == WaitForRequest then [d.t] else []
  }

  // The threads that the calls wake, as they come first in the ready list: the last one first.
  ghost function Wakes(accounts: map<Thread, Account>, ds: seq<Dfc>): seq<Thread> {
    if ds == [] then [] else Front(ds[|ds| - 1], StateAfter(accounts, ds[..|ds| - 1], ds[|ds| - 1].t)) + Wakes(accounts, ds[..|ds| - 1])
  }

  ghost function StateAfter(accounts: map<Thread, Account>, ds: seq<Dfc>, t: Thread): State {
    if t in accounts then AfterDfcs(accounts[t], ds, t).state else Dead
  }

  lemma WakesMore(accounts: map<Thread, Account>, ds: seq<Dfc>, d: Dfc, q: seq<Thread>)
    ensures Wakes(accounts, ds + [d]) + q == Front(d, StateAfter(accounts, ds, d.t)) + (Wakes(accounts, ds) + q)
  {
    assert (ds + [d])[..|ds|] == ds;
  }

  // How many of the calls complete a request of the thread.
  ghost function Completions(ds: seq<Dfc>, t: Thread): nat {
    if ds == [] then 0
    else Completions(ds[..|ds| - 1], t) + (if ds[|ds| - 1].CompleteDfc? && ds[|ds| - 1].t == t then 1 else 0)
  }

  ghost function HeadOf(s: Server?): set<Server> {
    if s == null then {} else {s}
  }

  // Blocked in the list of a server.
  predicate InServer(t: Thread)
    reads t`state, t`exitReason
  {
    t.state == BlockedFromSvc && (t.exitReason == WaitingForServerConnect || t.exitReason == InServerConnect)
  }

  // The thread that takes the requests of the server.
  ghost function Asker(s: Server): set<Thread>
    reads s`thread
  {
    if s.thread == null then {} else {s.thread}
  }

  // The thread of the server if it waits: it will be first in the ready list when signalled.
  ghost function Woken(s: Server): seq<Thread>
    reads s`thread, Asker(s)`state
  {
    if s.thread != null && s.thread.state == WaitForRequest then [s.thread] else []
  }

  // What holds of a thread by itself.
  ghost predicate ThreadOk(t: Thread)
    reads t`state, t`exitReason, t`on, t`completedRequests, t`sent, t`returned
  {
    && (t.state == Ready <==> t.on == 0) && (t.on > 0 <==> InServer(t))
    && t.returned <= t.sent && t.completedRequests == (t.sent - t.returned) % 256
    && (t.state == WaitForRequest ==> t.completedRequests == 0)
  }

  class SuperPage {
    var readyList: Thread?
    const servers: seq<Server>
    ghost var threads: set<Thread>
    var uptime: nat
    var timerCompletionTime: nat
    var timerThread: Thread?            // timerRequest
    var timerUserPtr: nat
    var currentThread: Thread?
    var rescheduleNeeded: bool          // rescheduleNeededOnPendSvExit
    var dfcs: seq<Dfc>
    ghost var queues: seq<seq<Thread>>  // the ready list, and the clients of each server
    ghost var running: seq<Dfc>         // what remains of the calls being run
    ghost var queued: seq<Dfc>          // all calls so far,
    ghost var ran: seq<Dfc>             // and those that have been run

    ghost function Head(j: nat): Thread?
      requires j <= |servers|
      reads this`readyList, servers`blockedClientList
    {
      if j == 0 then readyList else servers[j - 1].blockedClientList
    }

    ghost predicate OnList(j: nat)
      requires j <= |servers| && j < |queues|
      reads `readyList, `queues, servers`blockedClientList, queues[j]`prev, queues[j]`next, queues[j]`on
    {
      Ring(Head(j), queues[j]) && forall t :: t in queues[j] ==> t.on == j
    }

    ghost predicate OffList(t: Thread)
      reads `queues, t`on, t`prev, t`next
    {
      -1 <= t.on < |queues| && (if t.on >= 0 then t in queues[t.on] else t.prev == null && t.next == null)
    }

    // Every list is a ring; a thread is on at most one, and has no links if on none.
    ghost predicate Lists()
      reads `readyList, `queues, `threads, servers`blockedClientList, threads`prev, threads`next, threads`on
    {
      && |queues| == |servers| + 1 && NoDup(servers)
      && (forall j, t :: 0 <= j < |queues| && t in queues[j] ==> t in threads)
      && (forall j :: 0 <= j < |queues| ==> OnList(j))
      && forall t :: t in threads ==> OffList(t)
    }

    // Requests of servers are for threads of the system.
    ghost predicate ServerOk(s: Server)
      reads s, this`threads
    {
      && (s.thread != null ==> s.thread in threads) && (s.id == 0 <==> s.thread == null)
      && (s.thread == null ==> s.userPtr == 0 && s.blockedClientList == null)
    }

    ghost predicate Valid()
      reads this, servers, threads
    {
      && Lists() && (forall t :: t in threads ==> ThreadOk(t)) && (forall s :: s in servers ==> ServerOk(s))
      && Pending() && (currentThread != null ==> currentThread in threads) && (timerThread != null ==> timerThread in threads) && (timerCompletionTime != NEVER ==> timerThread != null && timerUserPtr != 0)
    }

    // ---------------------------------------------------------------- deferred calls

    // The calls that have been queued and not run.
    ghost function Waiting(): seq<Dfc>
      reads `running, `dfcs
    {
      running + dfcs
    }

    // The calls that were queued have been run in order, but for those that are waiting.
    ghost predicate Logged()
      reads `running, `dfcs, `queued, `ran, `threads
    {
      && queued == ran + Waiting() && |dfcs| <= MAX_DFCS
      && (forall i, j :: 0 <= i < j < |Waiting()| && Waiting()[i].ExitDfc? ==> Waiting()[i] != Waiting()[j])
      && forall d :: d in Waiting() ==> d.t in threads && (d.CompleteDfc? ==> d.userPtr != 0)
    }

    // The threads that are dying are those with a call to clean up after them.
    ghost predicate Pending()
      reads `running, `dfcs, `queued, `ran, `threads, threads`state
    {
      Logged() && forall t :: t in threads ==> (t.state == Dying <==> ExitDfc(t) in Waiting())
    }

    // The place of a thread in its list.
    ghost function Place(xs: seq<Thread>, t: Thread): (i: nat)
      requires t in xs
      ensures i < |xs| && xs[i] == t
    {
      if xs[0] == t then 0 else 1 + Place(xs[1..], t)
    }

    // List j is that of server s, or the ready list.
    ghost predicate IsListOf(s: Server?, j: nat)
      reads this
    {
      j < |queues| && |queues| == |servers| + 1 && NoDup(servers) && (if s == null then j == 0 else j > 0 && servers[j - 1] == s)
    }

    // thread_dequeue, from the list of a server or the ready list.
    method Remove(t: Thread, s: Server?, ghost j: nat)
      requires Lists() && t in threads && t.on == j && IsListOf(s, j)
      modifies `readyList, `queues, HeadOf(s)`blockedClientList, queues[j]`prev, queues[j]`next, t`on
      ensures Lists() && t.on == -1
      ensures t in old(queues[j]) && queues == old(queues)[j := Without(old(queues[j]), Place(old(queues[j]), t))]
      ensures s == null ==> readyList == (if queues[0] == [] then null else queues[0][0])
      ensures s != null ==> readyList == old(readyList)
    {
      hide Ring, Without, NoDup;
      assert OffList(t) && OnList(j);
      ghost var xs := queues[j];
      RingFacts(Head(j), xs);
      ghost var i := Place(xs, t);
      if s == null {
        readyList := Dequeue(t, readyList, xs, i);
      } else {
        s.blockedClientList := Dequeue(t, s.blockedClientList, xs, i);
      }
      t.on := -1;
      queues := queues[j := Without(xs, i)];
      WithoutMembers(xs, i);
      RingFacts(Head(j), Without(xs, i));
      assert OnList(j);
      OtherHeads(s, j);
      forall k | 0 <= k < |queues| && k != j ensures SameList(k) {}
      OthersKept(j);
      forall q | q in threads ensures OffList(q) { assert old(OffList(q)); }
    }

    lemma OtherHeads(s: Server?, j: nat)
      requires IsListOf(s, j)
      ensures forall k :: 0 <= k < |servers| && k + 1 != j ==> servers[k] != s
    {}

    twostate predicate SameList(k: nat)
      requires k < |queues| && |old(queues)| == |queues| && k <= |servers|
      reads this, servers
    {
      queues[k] == old(queues[k]) && Head(k) == old(Head(k))
    }

    // Other lists than j are as they were.
    twostate lemma OthersKept(j: nat)
      requires old(Lists()) && |queues| == |old(queues)| && threads == old(threads)
      requires forall k :: 0 <= k < |queues| && k != j ==> SameList(k)
      requires forall t :: t in threads && old(t.on) != j && old(t.on) >= 0 ==> t.prev == old(t.prev) && t.next == old(t.next) && t.on == old(t.on)
      ensures forall k :: 0 <= k < |queues| && k != j ==> OnList(k)
    {
      forall k | 0 <= k < |queues| && k != j ensures OnList(k) {
        assert SameList(k);
        assert old(OnList(k));
        forall i | 0 <= i < |queues[k]| ensures Joined(queues[k], i) { assert old(Joined(queues[k], i)); }
      }
    }

    // thread_enqueueBefore into the list of a server or the ready list, at place i; the
    // first place makes the thread the head.
    method Insert(t: Thread, s: Server?, before: Thread?, first: bool, ghost j: nat, ghost i: nat)
      requires Lists() && t in threads && t.on == -1 && IsListOf(s, j) && i <= |queues[j]| && (first <==> i == 0)
      requires before == (var xs := queues[j]; if xs == [] then null else if i == |xs| then xs[0] else xs[i])
      modifies `readyList, `queues, HeadOf(s)`blockedClientList, queues[j]`prev, queues[j]`next, t`prev, t`next, t`on
      ensures Lists() && t.on == j && queues == old(queues)[j := With(old(queues[j]), t, i)]
      ensures s != null ==> readyList == old(readyList)
    {
      hide Ring, NoDup;
      assert OffList(t) && OnList(j);
      ghost var xs := queues[j];
      RingFacts(Head(j), xs);
      EnqueueBefore(t, before, xs, i);
      if first {
        if s == null {
          readyList := t;
        } else {
          s.blockedClientList := t;
        }
      }
      t.on := j;
      queues := queues[j := With(xs, t, i)];
      WithMembers(xs, t, i);
      assert OnList(j);
      OtherHeads(s, j);
      forall k | 0 <= k < |queues| && k != j ensures SameList(k) {}
      OthersKept(j);
      forall q | q in threads ensures OffList(q) { assert old(OffList(q)); }
    }

    lemma QueueThreads(j: nat)
      requires Lists() && j < |queues|
      ensures forall q :: q in queues[j] ==> q in threads
    {}

    // The state says which list a thread is on, if any.
    lemma OffAndOn(t: Thread)
      requires Valid() && t in threads
      ensures ThreadOk(t) && -1 <= t.on < |queues| && (t.state != Ready && !InServer(t) ==> t.on == -1)
    {
      assert OffList(t) && ThreadOk(t);
    }

    // thread_setState.
    method SetState(t: Thread, st: State)
      requires Lists() && t in threads && (t.state == Ready <==> t.on == 0) && (st == Ready ==> t.on == -1)
      modifies `readyList, `queues, threads`prev, threads`next, t`on, t`state
      ensures Lists() && t.state == st
      ensures st == Ready ==> t.on == 0 && queues == old(queues)[0 := [t] + old(queues[0])]
      ensures st != Ready && old(t.state) == Ready ==> t.on == -1 && t in old(queues[0])
      ensures st != Ready && old(t.state) == Ready ==> queues == old(queues)[0 := Without(old(queues[0]), Place(old(queues[0]), t))]
      ensures st != Ready && old(t.state) != Ready ==> t.on == old(t.on) && queues == old(queues)
    {
      assert OnList(0);
      if st == Ready {
        assert With(queues[0], t, 0) == [t] + queues[0];
        Insert(t, null, readyList, true, 0, 0);
      } else if t.state == Ready {
        Remove(t, null, 0);
      }
      t.state := st;
    }

    // The list after t, at place i, has yielded: it is the last but one (if there are two others).
    ghost function Yielded(xs: seq<Thread>, t: Thread): (ys: seq<Thread>)
      requires t in xs
    {
      var rest := Without(xs, Place(xs, t));
      With(rest, t, if |rest| <= 1 then |rest| else |rest| - 1)
    }

    // thread_yield.
    method MoveToEnd(t: Thread)
      requires Lists() && t in threads && t.on == 0
      modifies `readyList, `queues, threads`prev, threads`next, t`on
      ensures Lists() && t.on == 0 && t in old(queues[0]) && queues == old(queues)[0 := Yielded(old(queues[0]), t)]
    {
      hide Ring, With, Without;
      assert OffList(t);
      Remove(t, null, 0);
      assert OnList(0);
      RingFacts(readyList, queues[0]);
      QueueThreads(0);
      ghost var rest := queues[0];
      var before := readyList;
      if readyList != null {
        LastIsBefore(rest);
        before := readyList.prev;
      }
      assert HeadOf(null) == {};
      assert forall q :: q in queues[0] ==> q in threads;
      assert t in threads;
      Insert(t, null, before, readyList == null, 0, if |rest| <= 1 then |rest| else |rest| - 1);
    }

    // Yielding keeps everything but the order.
    method Yield(t: Thread)
      requires Valid() && t in threads && t.state == Ready
      modifies `readyList, `queues, threads`prev, threads`next, t`on
      ensures Valid() && t in old(queues[0]) && queues == old(queues)[0 := Yielded(old(queues[0]), t)]
    {
      hide Lists, Yielded;
      assert ThreadOk(t);
      MoveToEnd(t);
      forall q | q in threads ensures ThreadOk(q) { assert old(ThreadOk(q)); }
      forall s | s in servers ensures ServerOk(s) { assert old(ServerOk(s)); }
    }

    // The calls that wait do not change, nor does who is dying.
    twostate lemma PendingKept()
      requires old(Pending()) && running == old(running) && dfcs == old(dfcs) && queued == old(queued) && ran == old(ran) && threads == old(threads)
      requires forall t :: t in threads ==> (t.state == Dying <==> old(t.state) == Dying)
      ensures Pending()
    {}

    // ------------------------------------------------------------------- requests

    // A waiting thread is told of its request.
    method Wake(t: Thread)
      requires Lists() && t in threads && t.state == WaitForRequest && t.on == -1
      modifies `readyList, `queues, threads`prev, threads`next, t`on, t`state, t`completedRequests, t`returned
      ensures Lists() && t.state == Ready && t.on == 0 && t.completedRequests == 0 && t.returned == old(t.returned) + old(t.completedRequests)
      ensures queues == old(queues)[0 := [t] + old(queues[0])]
    {
      // the result of the call is the number of requests
      t.returned := t.returned + t.completedRequests;
      t.completedRequests := 0;
      SetState(t, Ready);
    }

    // What is not a list is as it was, for threads other than t.
    twostate lemma Rest(t: Thread)
      requires old(Valid()) && Lists() && t in threads && threads == old(threads) && ThreadOk(t)
      requires forall q :: q in threads && q != t ==> (old(ThreadOk(q)) ==> ThreadOk(q)) && q.state == old(q.state)
      requires (t.state == Dying <==> old(t.state) == Dying) && (forall s :: s in servers && old(ServerOk(s)) ==> ServerOk(s))
      requires running == old(running) && dfcs == old(dfcs) && queued == old(queued) && ran == old(ran)
      requires timerThread == old(timerThread) && timerCompletionTime == old(timerCompletionTime) && timerUserPtr == old(timerUserPtr)
      requires currentThread == old(currentThread)
      ensures Valid()
    {
      hide Lists, ServerOk, ThreadOk;
      PendingKept();
    }

    // The same, with other calls waiting.
    twostate lemma RestPending(t: Thread)
      requires old(Valid()) && Lists() && Pending() && t in threads && threads == old(threads) && ThreadOk(t)
      requires forall q :: q in threads && q != t ==> (old(ThreadOk(q)) ==> ThreadOk(q))
      requires forall s :: s in servers && old(ServerOk(s)) ==> ServerOk(s)
      requires timerThread == old(timerThread) && timerCompletionTime == old(timerCompletionTime) && timerUserPtr == old(timerUserPtr)
      requires currentThread == old(currentThread)
      ensures Valid()
    {
      hide Lists, Pending, ServerOk, ThreadOk;
    }

    // A completion is counted, or given to the thread that waits for it.
    method Signal(t: Thread)
      requires Lists() && t in threads && ThreadOk(t) && (t.state == WaitForRequest ==> t.on == -1)
      modifies `readyList, `queues, threads`prev, threads`next, t`on, t`state, t`completedRequests, t`sent, t`returned
      ensures Lists() && ThreadOk(t) && AccountOf(t) == Signalled(old(AccountOf(t)))
      ensures old(t.state) == WaitForRequest ==> queues == old(queues)[0 := [t] + old(queues[0])]
      ensures old(t.state) != WaitForRequest ==> t.on == old(t.on) && queues == old(queues)
    {
      hide Lists;
      t.completedRequests := (t.completedRequests + 1) % 256;
      t.sent := t.sent + 1;
      if t.state == WaitForRequest {
        Wake(t);
      }
    }

    // thread_requestSignal; the caller clears the request.
    method RequestSignal(t: Thread)
      requires Valid() && t in threads
      modifies `readyList, `queues, threads`prev, threads`next, t`on, t`state, t`completedRequests, t`sent, t`returned
      ensures Valid() && t.sent == old(t.sent) + 1 && AccountOf(t) == Signalled(old(AccountOf(t)))
      ensures old(t.state) == WaitForRequest ==> t.state == Ready && t.completedRequests == 0 && t.returned == old(t.returned) + 1
      ensures old(t.state) == WaitForRequest ==> queues == old(queues)[0 := [t] + old(queues[0])]
      ensures old(t.state) != WaitForRequest ==> t.state == old(t.state) && t.on == old(t.on) && t.returned == old(t.returned) && queues == old(queues)
    {
      OffAndOn(t);
      hide Lists, Pending, ServerOk;
      Signal(t);
      hide ThreadOk;
      Rest(t);
    }

    // KExecWaitForAnyRequest, of the running thread: the number of completed requests, or none yet.
    method WaitForAnyRequest(t: Thread) returns (result: Option<nat>)
      requires Valid() && t in threads && t.state == Ready
      modifies `readyList, `queues, threads`prev, threads`next, t`on, t`state, t`completedRequests, t`returned
      ensures Valid() && t.sent == old(t.sent)
      ensures match result
              case None =>
                && t.state == WaitForRequest && t.returned == old(t.returned) && old(t.completedRequests) == 0
                && t in old(queues[0]) && queues == old(queues)[0 := Without(old(queues[0]), Place(old(queues[0]), t))]
              case Some(n) => n == old(t.completedRequests) > 0 && t.returned == old(t.returned) + n && t.completedRequests == 0 && t.state == Ready && queues == old(queues)
    {
      OffAndOn(t);
      hide Lists, Pending;
      if t.completedRequests != 0 {
        result := Some(t.completedRequests);
        t.returned := t.returned + t.completedRequests;
        t.completedRequests := 0;
      } else {
        SetState(t, WaitForRequest);
        result := None;
      }
      Rest(t);
    }

    // -------------------------------------------------------------------- servers

    // ipc_createServer.
    method CreateServer(id: nat, t: Thread) returns (err: Error)
      requires Valid() && t in threads
      modifies servers`id, servers`thread, servers`userPtr, servers`blockedClientList
      ensures Valid()
      ensures err == AlreadyExists <==> exists s :: s in servers && old(s.id) == id
      ensures err == NotFound ==> forall s :: s in servers ==> old(s.thread) != null
      ensures err == NoError ==> exists i :: 0 <= i < |servers| && Occupied(i, id, t)
      ensures err != NoError ==> forall k :: 0 <= k < |servers| ==> SameServer(k)
    {
      var idx: int := -1;
      var i := 0;
      while i < |servers|
        invariant 0 <= i <= |servers| && -1 <= idx < i && (idx >= 0 ==> servers[idx].thread == null && forall k :: idx < k < i ==> servers[k].thread != null)
        invariant forall k :: 0 <= k < i ==> servers[k].id != id && (idx == -1 ==> servers[k].thread != null)
      {
        if servers[i].id == id {
          return AlreadyExists;
        } else if servers[i].thread == null {
          idx := i;
        }
        i := i + 1;
      }
      if idx == -1 {
        return NotFound;
      }
      var s := servers[idx];
      assert ServerOk(s);
      assert id != 0;
      s.id := id;
      s.thread := t;
      s.userPtr := 0;
      s.blockedClientList := null;
      err := NoError;
      forall q | q in servers ensures ServerOk(q) { assert old(ServerOk(q)); }
      assert Occupied(idx, id, t);
    }

    twostate predicate SameServer(k: nat)
      requires k < |servers|
      reads this, servers
    {
      && servers[k].id == old(servers[k].id) && servers[k].thread == old(servers[k].thread)
      && servers[k].userPtr == old(servers[k].userPtr) && servers[k].blockedClientList == old(servers[k].blockedClientList)
    }

    // A free slot has been taken, the last one.
    twostate predicate Occupied(i: nat, id: nat, t: Thread)
      requires i < |servers|
      reads this, servers
    {
      && old(servers[i].thread) == null && servers[i].id == id && servers[i].thread == t
      && servers[i].userPtr == 0 && servers[i].blockedClientList == null
      && (forall k :: i < k < |servers| ==> old(servers[k].thread) != null)
      && forall k :: 0 <= k < |servers| && k != i ==> SameServer(k)
    }

    // The first server with this id, or thread.
    method FindServer(id: nat) returns (r: Option<nat>)
      ensures match r
              case None => forall s :: s in servers ==> s.id != id
              case Some(i) => i < |servers| && servers[i].id == id
    {
      var i := 0;
      while i < |servers|
        invariant 0 <= i <= |servers| && forall k :: 0 <= k < i ==> servers[k].id != id
      {
        if servers[i].id == id {
          return Some(i);
        }
        i := i + 1;
      }
      r := None;
    }

    // A running client is put last in the list of a server.
    method BlockOn(client: Thread, i: nat)
      requires Lists() && client in threads && client.state == Ready && client.on == 0 && i < |servers|
      modifies `readyList, `queues, servers`blockedClientList, threads`prev, threads`next, client`on, client`state
      ensures Lists() && client.state == BlockedFromSvc && client.on == i + 1 && client in old(queues[0])
      ensures queues == old(queues)[0 := Without(old(queues[0]), Place(old(queues[0]), client))][i + 1 := old(queues[i + 1]) + [client]]
      ensures forall k :: 0 <= k < |servers| && k != i ==> servers[k].blockedClientList == old(servers[k].blockedClientList)
    {
      hide Ring;
      var s := servers[i];
      SetState(client, BlockedFromSvc);
      assert OnList(i + 1);
      RingFacts(s.blockedClientList, queues[i + 1]);
      QueueThreads(i + 1);
      ghost var xs := queues[i + 1];
      assert With(xs, client, |xs|) == xs + [client];
      Insert(client, s, s.blockedClientList, s.blockedClientList == null, i + 1, |xs|);
    }

    // The client is blocked, last in its list.
    ghost predicate LastOf(client: Thread, i: nat)
      reads this, client
    {
      i < |servers| && i + 1 < |queues| && client.on == i + 1 && queues[i + 1] != [] && queues[i + 1][|queues[i + 1]| - 1] == client
      && client.state == BlockedFromSvc
    }

    method Block(client: Thread, i: nat, reason: Reason)
      requires Valid() && client in threads && client.state == Ready && i < |servers| && servers[i].thread != null
      requires reason == WaitingForServerConnect || reason == InServerConnect
      modifies `readyList, `queues, servers`blockedClientList, threads`prev, threads`next, client`on, client`state, client`exitReason
      ensures Valid() && client.exitReason == reason && LastOf(client, i)
      ensures client in old(queues[0]) && |old(queues)| > i + 1
      ensures queues == old(queues)[0 := Without(old(queues[0]), Place(old(queues[0]), client))][i + 1 := old(queues[i + 1]) + [client]]
    {
      hide Lists, Pending, Without;
      OffAndOn(client);
      QueuesFor();
      BlockOn(client, i);
      client.exitReason := reason;
      forall s | s in servers && old(ServerOk(s)) ensures ServerOk(s) {}
      Rest(client);
    }

    lemma QueuesFor()
      requires Valid()
      ensures |queues| == |servers| + 1
    {}

    // The request of a server is completed: its thread is signalled.
    method SignalServer(s: Server)
      requires Valid() && s in servers && s.userPtr != 0
      modifies `readyList, `queues, s`userPtr, threads`prev, threads`next
      modifies Asker(s)`on, Asker(s)`state, Asker(s)`completedRequests, Asker(s)`sent, Asker(s)`returned
      ensures Valid() && s.userPtr == 0 && |queues| == |old(queues)| > 0 && queues == old(queues)[0 := old(Woken(s)) + old(queues[0])]
      ensures Told(s, null)
      ensures forall q :: q in Asker(s) && old(q.state) != WaitForRequest ==> q.state == old(q.state) && q.on == old(q.on)
    {
      assert ServerOk(s);
      QueuesFor();
      hide Valid;
      assert [] + queues[0] == queues[0];
      RequestSignal(s.thread);
      ClearRequest(s);
    }

    // ipc_connectToServer, on the queue and states: the client waits in the list of the server.
    method Connect(id: nat, client: Thread) returns (err: Error)
      requires Valid() && client in threads && client.state == Ready && id != 0
      modifies `readyList, `queues, servers`blockedClientList, servers`userPtr, threads
      ensures Valid() && (err == NotFound <==> forall s :: s in servers ==> s.id != id) && err != AlreadyExists
      ensures err == NoError ==> exists i :: 0 <= i < |servers| && servers[i].id == id && LastOf(client, i) && Joins(client, i)
      ensures err == NotFound ==> Nothing()
    {
      hide Valid, LastOf, Nothing, Signalled;
      var r := FindServer(id);
      if r.None? {
        NothingDone();
        return NotFound;
      }
      ServerKnown(r.value);
      ConnectTo(r.value, client);
      err := NoError;
      assert servers[r.value] in servers && Joins(client, r.value);
    }

    lemma ServerKnown(i: nat)
      requires Valid() && i < |servers|
      ensures Asker(servers[i]) <= threads && (servers[i].thread == null <==> servers[i].id == 0)
      ensures servers[i].userPtr != 0 ==> servers[i].thread != null
    {
      assert ServerOk(servers[i]);
    }

    twostate lemma NothingDone()
      requires queues == old(queues)
      requires forall q :: q in threads && q in old(threads) ==> AccountOf(q) == old(AccountOf(q))
      requires forall k :: 0 <= k < |servers| ==> SameServer(k)
      ensures Nothing()
    {}

    twostate predicate Nothing()
      reads this, servers, threads
    {
      queues == old(queues) && Others(null) && forall k :: 0 <= k < |servers| ==> SameServer(k)
    }

    method ConnectTo(i: nat, client: Thread)
      requires Valid() && client in threads && client.state == Ready && i < |servers| && servers[i].thread != null
      modifies `readyList, `queues, servers`blockedClientList, servers`userPtr, threads
      ensures Valid() && LastOf(client, i) && Joins(client, i)
    {
      hide Valid, LastOf, Joins;
      if servers[i].userPtr != 0 {
        ConnectNow(i, client);
      } else {
        ConnectLater(i, client);
      }
    }

    // The server had asked for a request, and gets this one.
    method ConnectNow(i: nat, client: Thread)
      requires Valid() && client in threads && client.state == Ready && i < |servers| && servers[i].thread != null && servers[i].userPtr != 0
      modifies `readyList, `queues, servers`blockedClientList, servers`userPtr, threads
      ensures Valid() && LastOf(client, i) && Joins(client, i)
    {
      hide Valid, Without, Place;
      ServerKnown(i);
      var s := servers[i];
      QueuesFor();
      Block(client, i, InServerConnect);
      SignalServer(s);
    }

    method ConnectLater(i: nat, client: Thread)
      requires Valid() && client in threads && client.state == Ready && i < |servers| && servers[i].thread != null && servers[i].userPtr == 0
      modifies `readyList, `queues, servers`blockedClientList, servers`userPtr, threads
      ensures Valid() && LastOf(client, i) && Joins(client, i)
    {
      hide Valid, Without, Place;
      QueuesFor();
      Block(client, i, WaitingForServerConnect);
    }

    // What threads other than t have been sent and told of, and their states, are the same.
    twostate predicate Others(t: Thread?)
      reads this, threads
    {
      forall q :: q in threads && q in old(threads) && q != t ==> AccountOf(q) == old(AccountOf(q))
    }

    // The thread of the server has been signalled, and others than the client are as they were.
    twostate predicate Told(s: Server, client: Thread?)
      reads this, s, threads
    {
      forall q :: q in threads && q in old(threads) && q != client ==>
        AccountOf(q) == if q == s.thread then Signalled(old(AccountOf(q))) else old(AccountOf(q))
    }

    // The client is now the last one of the server, which has been told of it if it had a
    // request. Other lists of clients are as they were.
    twostate predicate Joins(client: Thread, i: nat)
      requires i < |servers|
      reads this, servers, threads, client
    {
      && |queues| == |old(queues)| == |servers| + 1 && client in old(queues[0]) && queues[i + 1] == old(queues[i + 1]) + [client]
      && queues[0] == (if old(servers[i].userPtr) != 0 then old(Woken(servers[i])) else []) + Without(old(queues[0]), Place(old(queues[0]), client))
      && (forall k :: 0 < k < |queues| && k != i + 1 ==> queues[k] == old(queues[k]))
      && client.exitReason == (if old(servers[i].userPtr) != 0 then InServerConnect else WaitingForServerConnect)
      && servers[i].userPtr == 0 && servers[i].thread != null && client.returned == old(client.returned)
      && client.sent == old(client.sent) + (if old(servers[i].userPtr) != 0 && servers[i].thread == client then 1 else 0)
      && if old(servers[i].userPtr) != 0 then Told(servers[i], client) else Others(client)
    }

    // The request has been completed.
    method ClearRequest(s: Server)
      requires Valid() && s in servers
      modifies s`userPtr
      ensures Valid() && s.userPtr == 0
    {
      hide Lists, Pending;
      s.userPtr := 0;
      forall q | q in servers ensures ServerOk(q) { assert old(ServerOk(q)); }
    }

    // The server of a thread: the first one whose requests it takes.
    method ServerOf(t: Thread) returns (i: nat)
      requires exists s :: s in servers && s.thread == t
      ensures i < |servers| && servers[i].thread == t && forall k :: 0 <= k < i ==> servers[k].thread != t
    {
      i := 0;
      while servers[i].thread != t
        invariant 0 <= i < |servers| && forall k :: 0 <= k < i ==> servers[k].thread != t
        decreases |servers| - i
      {
        i := i + 1;
        if i == |servers| {
          assert false;
        }
      }
    }

    // A client whose request has been handled goes on.
    method Release(t: Thread, s: Server, ghost j: nat)
      requires Valid() && t in threads && j > 0 && t.on == j && IsListOf(s, j) && s in servers
      modifies `readyList, `queues, servers`blockedClientList, threads`prev, threads`next, t`on, t`state
      ensures Valid() && t.state == Ready && t in old(queues[j])
      ensures queues == old(queues)[j := Without(old(queues[j]), Place(old(queues[j]), t))][0 := [t] + old(queues[0])]
    {
      OffAndOn(t);
      ServerBusy(t, s, j);
      ReleaseLists(t, s, j);
      hide Lists, Pending, Without;
      forall q | q in servers && old(ServerOk(q)) ensures ServerOk(q) { assert q != s ==> q.blockedClientList == old(q.blockedClientList); }
      Rest(t);
    }

    lemma ServerBusy(t: Thread, s: Server, j: nat)
      requires Valid() && t in threads && j > 0 && t.on == j && IsListOf(s, j) && s in servers
      ensures s.thread != null && s.blockedClientList != null
    {
      assert OffList(t) && OnList(j) && ServerOk(s);
    }

    method ReleaseLists(t: Thread, s: Server, ghost j: nat)
      requires Lists() && t in threads && j > 0 && t.on == j && IsListOf(s, j) && t.state != Ready
      modifies `readyList, `queues, servers`blockedClientList, threads`prev, threads`next, t`on, t`state
      ensures Lists() && t.state == Ready && t.on == 0 && t in old(queues[j])
      ensures queues == old(queues)[j := Without(old(queues[j]), Place(old(queues[j]), t))][0 := [t] + old(queues[0])]
      ensures forall q :: q in servers && q != s ==> q.blockedClientList == old(q.blockedClientList)
    {
      hide Ring, Without;
      QueueThreads(j);
      OtherHeads(s, j);
      Remove(t, s, j);
      QueueThreads(0);
      SetState(t, Ready);
    }

    // ipc_requestServerMsg: the newest client of the list is released, or its request handed
    // over. That is the oldest one if and only if it is alone; and a client in service goes on
    // if and only if no other has come after it.
    method RequestServerMsg(t: Thread, request: nat) returns (ghost i: nat, ghost chosen: Thread?)
      requires Valid() && request != 0 && exists s :: s in servers && s.thread == t
      requires forall s :: s in servers && s.thread == t ==> s.userPtr == 0
      modifies `readyList, `queues, servers`blockedClientList, servers`userPtr, threads
      ensures Valid() && |queues| == |old(queues)| == |servers| + 1
      ensures i < |servers| && servers[i].thread == t && Served(i, request)
      ensures chosen == Last(old(queues[i + 1])) && OldestIfAlone(old(queues[i + 1]), chosen)
    {
      hide Valid, LastGoesOn, Last, OldestIfAlone;
      var server := ServerOf(t);
      i := server;
      QueuesFor();
      LastAlone(i + 1);
      SetRequest(servers[server], request);
      chosen := Serve(server);
      QueuesFor();
      ServedLast(i);
    }

    // The client that a request concerns: the last one of the list.
    ghost function Last(xs: seq<Thread>): Thread? {
      if xs == [] then null else xs[|xs| - 1]
    }

    // It is the one that came first if and only if no other is there.
    ghost predicate OldestIfAlone(xs: seq<Thread>, chosen: Thread?) {
      xs != [] ==> (chosen == xs[0] <==> |xs| == 1)
    }

    lemma LastAlone(j: nat)
      requires Valid() && j < |queues|
      ensures OldestIfAlone(queues[j], Last(queues[j])) && NoDup(queues[j])
    {
      assert OnList(j);
    }

    // The others in the list stay blocked.
    twostate lemma ServedLast(i: nat)
      requires Valid() && i < |servers| && |queues| == |old(queues)| == |servers| + 1
      requires var xs := old(queues[i + 1]);
        NoDup(xs) && (xs != [] ==> if old(xs[|xs| - 1].exitReason) == InServerConnect then queues[i + 1] == xs[..|xs| - 1] else queues[i + 1] == xs)
      requires var xs := old(queues[i + 1]); xs != [] && old(xs[|xs| - 1].exitReason) == InServerConnect ==> xs[|xs| - 1].state == Ready
      ensures LastGoesOn(i)
    {
      var xs := old(queues[i + 1]);
      assert OnList(i + 1);
      hide Lists, Pending;
      forall c | c in xs && c in threads && c in old(threads) && old(c.exitReason) == InServerConnect
        ensures c.state == Ready <==> c == xs[|xs| - 1]
      {
        if c != xs[|xs| - 1] {
          var k :| 0 <= k < |xs| && xs[k] == c;
          assert queues[i + 1][k] == c;
          assert ThreadOk(c) && c.on == i + 1;
        }
      }
    }

    twostate predicate Served(i: nat, request: nat)
      requires i < |servers| && |queues| == |old(queues)| == |servers| + 1
      reads this, servers, threads
    {
      Handed(i, request) && LastGoesOn(i)
    }

    // A client in service goes on if and only if it is the last one in the list.
    twostate predicate LastGoesOn(i: nat)
      requires i < |servers| && |old(queues)| == |servers| + 1
      reads this, threads
    {
      var xs := old(queues[i + 1]);
      forall c :: c in xs && c in threads && c in old(threads) && old(c.exitReason) == InServerConnect ==>
        (c.state == Ready <==> c == xs[|xs| - 1])
    }

    method Serve(i: nat) returns (ghost chosen: Thread?)
      requires Valid() && i < |servers| && servers[i].userPtr != 0 && |queues| == |servers| + 1
      modifies `readyList, `queues, servers`blockedClientList, servers`userPtr, threads
      ensures Valid() && |queues| == |servers| + 1 && Handed(i, old(servers[i].userPtr)) && servers[i].thread == old(servers[i].thread)
      ensures chosen == Last(old(queues[i + 1]))
    {
      hide Valid, Without, Signalled;
      ServerKnown(i);
      var s := servers[i];
      ListOf(i);
      chosen := null;
      if s.blockedClientList != null {
        var newest := Newest(s, i + 1);
        chosen := newest;
        if newest.exitReason == InServerConnect {
          // a server that asks again has dealt with this client
          Release(newest, s, i + 1);
        } else {
          // the client's connection is the message
          HandOver(newest);
          SignalServer(s);
        }
      }
    }

    // What has become of the server's clients and request.
    twostate predicate Handed(i: nat, request: nat)
      requires i < |servers| && |queues| == |old(queues)| == |servers| + 1
      reads this, servers, threads
    {
      && (forall k :: 0 < k < |queues| && k != i + 1 ==> queues[k] == old(queues[k]))
      && var xs := old(queues[i + 1]);
         if xs == [] then servers[i].userPtr == request && queues == old(queues) && Others(null)
         else
           var newest := xs[|xs| - 1];
           if old(newest.exitReason) == InServerConnect
           then
             && newest in threads && AccountOf(newest) == old(AccountOf(newest)).(state := Ready)
             && servers[i].userPtr == request && queues[i + 1] == xs[..|xs| - 1]
             && queues[0] == [newest] + old(queues[0]) && Others(newest)
           else
             && newest in threads && newest.exitReason == InServerConnect && newest.state == old(newest.state)
             && servers[i].userPtr == 0 && queues[i + 1] == xs
             && queues[0] == old(Woken(servers[i])) + old(queues[0]) && Told(servers[i], newest)
    }

    lemma ListOf(i: nat)
      requires Valid() && i < |servers|
      ensures IsListOf(servers[i], i + 1) && (servers[i].blockedClientList == null ==> queues[i + 1] == [])
      ensures servers[i].blockedClientList != null ==> queues[i + 1] != []
    {
      assert OnList(i + 1);
      RingFacts(servers[i].blockedClientList, queues[i + 1]);
    }

    method SetRequest(s: Server, request: nat)
      requires Valid() && s in servers && s.thread != null
      modifies s`userPtr
      ensures Valid() && s.userPtr == request
    {
      hide Lists, Pending;
      s.userPtr := request;
      forall q | q in servers ensures ServerOk(q) { assert old(ServerOk(q)); }
    }

    method HandOver(t: Thread)
      requires Valid() && t in threads && InServer(t)
      modifies t`exitReason
      ensures Valid() && t.exitReason == InServerConnect
    {
      OffAndOn(t);
      t.exitReason := InServerConnect;
      hide Lists, Pending;
      Rest(t);
    }

    // blockedClientList->prev: the newest client.
    method Newest(s: Server, ghost j: nat) returns (t: Thread)
      requires Valid() && j > 0 && IsListOf(s, j) && s.blockedClientList != null
      ensures queues[j] != [] && t == queues[j][|queues[j]| - 1] && t in threads && t.on == j && InServer(t)
      ensures Without(queues[j], Place(queues[j], t)) == queues[j][..|queues[j]| - 1]
    {
      assert OnList(j);
      RingFacts(s.blockedClientList, queues[j]);
      LastIsBefore(queues[j]);
      QueueThreads(j);
      t := s.blockedClientList.prev;
      assert t in queues[j] && ThreadOk(t);
    }

    // ------------------------------------------------------------------ deferred calls

    // dfc_queue; there is room for the call.
    method QueueDfc(d: Dfc)
      requires Logged() && |dfcs| < MAX_DFCS && d.t in threads && (if d.CompleteDfc? then d.userPtr != 0 else d !in Waiting())
      modifies `dfcs, `queued
      ensures Logged() && dfcs == old(dfcs) + [d] && queued == old(queued) + [d] && Waiting() == old(Waiting()) + [d]
    {
      dfcs := dfcs + [d];
      queued := queued + [d];
      assert Waiting() == old(Waiting()) + [d];
    }

    // thread_exit, of the running thread.
    method Exit(t: Thread, code: int)
      requires Valid() && t in threads && t.state == Ready && |dfcs| < MAX_DFCS
      modifies `readyList, `queues, `dfcs, `queued, threads`prev, threads`next, t`on, t`state, t`exitReason
      ensures Valid() && t.state == Dying && t.exitReason == Exited(code) && dfcs == old(dfcs) + [ExitDfc(t)]
      ensures t in old(queues[0]) && queues == old(queues)[0 := Without(old(queues[0]), Place(old(queues[0]), t))]
    {
      OffAndOn(t);
      t.exitReason := Exited(code);
      Die(t);
      hide Lists, Pending, ServerOk;
      forall s | s in servers && old(ServerOk(s)) ensures ServerOk(s) {}
      RestPending(t);
    }

    method Die(t: Thread)
      requires Lists() && Pending() && t in threads && t.state == Ready && t.on == 0 && |dfcs| < MAX_DFCS
      modifies `readyList, `queues, `dfcs, `queued, threads`prev, threads`next, t`on, t`state
      ensures Lists() && Pending() && t.state == Dying && t.on == -1 && dfcs == old(dfcs) + [ExitDfc(t)]
      ensures t in old(queues[0]) && queues == old(queues)[0 := Without(old(queues[0]), Place(old(queues[0]), t))]
    {
      hide Lists, Logged;
      SetState(t, Dying);
      QueueDfc(ExitDfc(t));
    }

    // thread_init and thread_new: a dead thread begins.
    method Start(t: Thread)
      requires Valid() && t in threads && t.state == Dead
      modifies `readyList, `queues, threads`prev, threads`next, t`on, t`state, t`exitReason, t`timeslice, t`completedRequests, t`sent, t`returned
      ensures Valid() && t.state == Ready && queues == old(queues)[0 := [t] + old(queues[0])]
      ensures t.completedRequests == t.sent == t.returned == 0
    {
      OffAndOn(t);
      Initialize(t);
      hide Lists, Pending, ServerOk;
      forall s | s in servers && old(ServerOk(s)) ensures ServerOk(s) {}
      Rest(t);
    }

    method Initialize(t: Thread)
      requires Lists() && t in threads && t.state == Dead && t.on == -1
      modifies `readyList, `queues, threads`prev, threads`next, t`on, t`state, t`exitReason, t`timeslice, t`completedRequests, t`sent, t`returned
      ensures Lists() && t.state == Ready && t.on == 0 && ThreadOk(t)
      ensures queues == old(queues)[0 := [t] + old(queues[0])] && t.completedRequests == t.sent == t.returned == 0
    {
      hide Lists;
      t.timeslice := THREAD_TIMESLICE;
      t.completedRequests := 0;
      t.sent, t.returned := 0, 0;
      t.exitReason := NoReason;
      SetState(t, Ready);
    }

    // Runs the first of the calls.
    method RunDfc(d: Dfc)
      requires Valid() && running != [] && running[0] == d
      modifies `readyList, `queues, `running, `ran, threads`prev, threads`next
      modifies d.t`on, d.t`state, d.t`completedRequests, d.t`sent, d.t`returned
      ensures Valid() && running == old(running[1..]) && ran == old(ran) + [d]
      ensures AccountOf(d.t) == AfterDfc(old(AccountOf(d.t)), d, d.t) && (d.ExitDfc? ==> old(d.t.state) == Dying)
      ensures |queues| == |old(queues)| > 0 && queues == old(queues)[0 := Front(d, old(d.t.state)) + old(queues[0])]
    {
      FirstWaits(d);
      QueuesFor();
      assert [] + queues[0] == queues[0];
      if d.CompleteDfc? {
        Drop(d);
        RequestSignal(d.t);
      } else {
        Bury(d);
      }
    }

    lemma FirstWaits(d: Dfc)
      requires Pending() && running != [] && running[0] == d
      ensures d.t in threads && (d.ExitDfc? ==> d.t.state == Dying)
    {
      assert Waiting()[0] == d && d in Waiting();
    }

    // A call to clean up is not there twice.
    lemma OneLess(d: Dfc)
      requires Logged() && running != [] && running[0] == d && d.ExitDfc?
      ensures d !in running[1..] + dfcs
    {
      var rest := running[1..] + dfcs;
      assert Waiting() == [d] + rest;
      forall i | 0 <= i < |rest| ensures rest[i] != d {
        assert Waiting()[0] == d && Waiting()[i + 1] == rest[i];
      }
    }

    method Drop(d: Dfc)
      requires Valid() && running != [] && running[0] == d && d.CompleteDfc?
      modifies `running, `ran
      ensures Valid() && running == old(running[1..]) && ran == old(ran) + [d]
    {
      hide Lists, ThreadOk, ServerOk, Logged;
      Shift(d);
    }

    // threadExit_dfc, for the thread.
    method Bury(d: Dfc)
      requires Valid() && running != [] && running[0] == d && d.ExitDfc?
      modifies `readyList, `queues, `running, `ran, threads`prev, threads`next, d.t`on, d.t`state
      ensures Valid() && running == old(running[1..]) && ran == old(ran) + [d] && d.t.state == Dead && queues == old(queues)
    {
      FirstWaits(d);
      OffAndOn(d.t);
      Kill(d);
      hide Lists, Pending, ServerOk;
      forall s | s in servers && old(ServerOk(s)) ensures ServerOk(s) {}
      RestPending(d.t);
    }

    method Kill(d: Dfc)
      requires Lists() && Pending() && running != [] && running[0] == d && d.ExitDfc? && d.t in threads && d.t.state == Dying && d.t.on == -1
      modifies `readyList, `queues, `running, `ran, threads`prev, threads`next, d.t`on, d.t`state
      ensures Lists() && Pending() && running == old(running[1..]) && ran == old(ran) + [d] && d.t.state == Dead && d.t.on == -1 && queues == old(queues)
    {
      hide Lists;
      OneLess(d);
      SetState(d.t, Dead);
      Shift(d);
    }

    // The first call is taken off.
    ghost method Shift(d: Dfc)
      requires Logged() && running != [] && running[0] == d
      modifies `running, `ran
      ensures Logged() && running == old(running[1..]) && ran == old(ran) + [d] && forall x :: x in old(Waiting()) <==> x == d || x in Waiting()
    {
      ghost var before := Waiting();
      ran := ran + [d];
      running := running[1..];
      assert before == [d] + Waiting();
      assert ran + Waiting() == old(ran) + before;
      forall i, j | 0 <= i < j < |Waiting()| && Waiting()[i].ExitDfc? ensures Waiting()[i] != Waiting()[j] {
        assert before[i + 1] == Waiting()[i] && before[j + 1] == Waiting()[j];
      }
    }

    // At most the call that completes the timer has been queued.
    predicate Roomy()
      reads `dfcs, `timerCompletionTime
    {
      dfcs == [] || (|dfcs| == 1 && timerCompletionTime == NEVER)
    }

    // The threads that the calls have woken are first in the ready list.
    twostate predicate Woke(accounts: map<Thread, Account>, ds: seq<Dfc>)
      reads this
    {
      && |queues| == |old(queues)| > 0 && queues == old(queues)[0 := Wakes(accounts, ds) + old(queues[0])]
      && rescheduleNeeded == old(rescheduleNeeded)
    }

    twostate lemma NoneWoke(accounts: map<Thread, Account>)
      requires queues == old(queues) && |queues| > 0 && rescheduleNeeded == old(rescheduleNeeded)
      ensures Woke(accounts, [])
    {
      assert Wakes(accounts, []) + queues[0] == queues[0];
    }

    method RunAll(batch: seq<Dfc>, ticks: seq<nat>, ghost accounts: map<Thread, Account>)
      requires Valid() && Roomy() && running == batch && |ticks| == |batch| + 1 && MayRun(accounts, batch) && Accounted(accounts, [])
      modifies this, threads
      ensures Valid() && Roomy() && running == [] && ran == old(ran) + batch && threads == old(threads) && currentThread == old(currentThread)
      ensures uptime == old(uptime) + Total(ticks) && (old(rescheduleNeeded) ==> rescheduleNeeded) && Accounted(accounts, batch)
      ensures Total(ticks) == 0 ==> Woke(accounts, batch)
    {
      hide Valid, MayRun, Accounted, Front, Wakes, StateAfter;
      QueuesFor();
      NoneWoke(accounts);
      var i := 0;
      while i < |batch|
        invariant 0 <= i <= |batch| && Valid() && Roomy() && running == batch[i..] && ran == old(ran) + batch[..i] && threads == old(threads)
        invariant uptime == old(uptime) + Total(ticks[..i]) && currentThread == old(currentThread) && (old(rescheduleNeeded) ==> rescheduleNeeded)
        invariant Accounted(accounts, batch[..i]) && (Total(ticks[..i]) == 0 ==> Woke(accounts, batch[..i]))
      {
        assert batch[i..][1..] == batch[i + 1..] && batch[i] in batch;
        CallKnown(accounts, batch, batch[i]);
        assert batch[..i + 1] == batch[..i] + [batch[i]];
        TotalNext(ticks, i);
        NextDfc(batch[i], ticks[i], accounts, batch[..i]);
        WakesMore(accounts, batch[..i], batch[i], old(queues[0]));
        i := i + 1;
      }
      assert batch[..|batch|] == batch && ticks[..|batch| + 1] == ticks;
      TotalNext(ticks, |batch|);
      TicksBefore(ticks[|batch|], accounts, batch);
    }

    method TicksBefore(n: nat, ghost accounts: map<Thread, Account>, ghost ds: seq<Dfc>)
      requires Valid() && Roomy() && Accounted(accounts, ds)
      modifies `uptime, `timerCompletionTime, `timerUserPtr, `dfcs, `queued, `readyList, `queues, `rescheduleNeeded
      modifies threads`prev, threads`next, threads`on, threads`timeslice
      ensures Valid() && Roomy() && uptime == old(uptime) + n && (old(rescheduleNeeded) ==> rescheduleNeeded) && Accounted(accounts, ds)
      ensures n == 0 ==> Still()
    {
      hide Valid, AfterDfcs;
      Ticks(n);
    }

    // doPendSv: the calls that are queued are run in order. Before each of them, and at the
    // end, there may be timer interrupts ('ticks' says how many); what they queue is left for
    // the next time. Another thread is scheduled if one of them asked for it.
    method DoPendSv(ticks: seq<nat>) returns (ghost rescheduled: bool)
      requires Valid() && running == [] && |ticks| == |dfcs| + 1
      modifies this, threads
      ensures Valid() && running == [] && ran == old(ran) + old(dfcs) && uptime == old(uptime) + Total(ticks) && threads == old(threads)
      ensures forall t :: t in threads ==> AccountOf(t) == AfterDfcs(old(AccountOf(t)), old(dfcs), t) && t.sent == old(t.sent) + Completions(old(dfcs), t)
      ensures forall t :: t in threads && ExitDfc(t) in old(dfcs) ==> t.state == Dead
      ensures forall t :: t in threads && old(t.state) == WaitForRequest && Completions(old(dfcs), t) > 0 ==>
        t.state == Ready && t.returned == old(t.returned) + 1
      ensures forall t :: t in threads && ExitDfc(t) !in old(dfcs) && Completions(old(dfcs), t) == 0 ==> AccountOf(t) == old(AccountOf(t))
      ensures !rescheduleNeeded && (old(rescheduleNeeded) ==> rescheduled) && |queues| == |servers| + 1 == |old(queues)|
      ensures Total(ticks) == 0 ==> rescheduled == old(rescheduleNeeded)
      ensures Total(ticks) == 0 ==>
        queues == old(queues)[0 := Wakes(old(map t | t in threads :: AccountOf(t)), old(dfcs)) + old(queues[0])]
      ensures currentThread == if !rescheduled then old(currentThread) else if queues[0] == [] then null else queues[0][0]
    {
      hide Valid, MayRun, AfterDfcs, Completions, Accounted, Wakes;
      QueuesFor();
      var batch := dfcs;
      ghost var accounts := map t | t in threads :: AccountOf(t);
      CallsKnown(accounts);
      TakeAll();
      RunAll(batch, ticks, accounts);
      CallsDone(accounts, batch);
      rescheduled := TakeReschedule();
    }

    // Another thread runs if one of the calls or interrupts asked for it.
    method TakeReschedule() returns (needed: bool)
      requires Valid()
      modifies `rescheduleNeeded, `currentThread, threads`timeslice
      ensures Valid() && !rescheduleNeeded && needed == old(rescheduleNeeded) && |queues| == |servers| + 1
      ensures currentThread == if !needed then old(currentThread) else if queues[0] == [] then null else queues[0][0]
    {
      hide Valid;
      needed := rescheduleNeeded;
      ClearReschedule();
      QueuesFor();
      if needed {
        Reschedule();
      }
    }

    // The threads are as the calls 'ds' leave them, from 'accounts' on.
    ghost predicate Accounted(accounts: map<Thread, Account>, ds: seq<Dfc>)
      reads `threads, threads`state, threads`sent, threads`returned, threads`completedRequests, threads`exitReason
    {
      accounts.Keys == threads && forall t :: t in accounts ==> AccountOf(t) == AfterDfcs(accounts[t], ds, t)
    }

    // Timer interrupts and then the next of the calls.
    method NextDfc(d: Dfc, n: nat, ghost accounts: map<Thread, Account>, ghost ds: seq<Dfc>)
      requires Valid() && Roomy() && running != [] && running[0] == d && d.t in accounts && Accounted(accounts, ds)
      modifies this, threads
      ensures Valid() && Roomy() && running == old(running[1..]) && ran == old(ran) + [d] && threads == old(threads)
      ensures uptime == old(uptime) + n && currentThread == old(currentThread) && (old(rescheduleNeeded) ==> rescheduleNeeded)
      ensures Accounted(accounts, ds + [d])
      ensures n == 0 ==> rescheduleNeeded == old(rescheduleNeeded) && |queues| == |old(queues)| > 0
                         && queues == old(queues)[0 := Front(d, StateAfter(accounts, ds, d.t)) + old(queues[0])]
    {
      hide Valid, AfterDfcs, StateAfter, Front;
      QueuesFor();
      TicksBefore(n, accounts, ds);
      RunAccounted(d, accounts, ds);
    }

    method RunAccounted(d: Dfc, ghost accounts: map<Thread, Account>, ghost ds: seq<Dfc>)
      requires Valid() && running != [] && running[0] == d && d.t in accounts && Accounted(accounts, ds)
      modifies `readyList, `queues, `running, `ran, threads`prev, threads`next
      modifies d.t`on, d.t`state, d.t`completedRequests, d.t`sent, d.t`returned
      ensures Valid() && running == old(running[1..]) && ran == old(ran) + [d] && Accounted(accounts, ds + [d])
      ensures |queues| == |old(queues)| > 0 && queues == old(queues)[0 := Front(d, StateAfter(accounts, ds, d.t)) + old(queues[0])]
    {
      hide Valid, Signalled, AfterDfcs;
      RunDfc(d);
      forall t | t in accounts ensures AccountOf(t) == AfterDfcs(accounts[t], ds + [d], t) {
        OneMore(accounts[t], ds, d, t);
      }
    }

    // Before the calls are run: waiting threads have nothing to be told, those with a call to
    // clean up after them are dying.
    ghost predicate MayRun(accounts: map<Thread, Account>, ds: seq<Dfc>) {
      && (forall d :: d in ds ==> d.t in accounts)
      && forall t :: t in accounts ==>
           && accounts[t].completed < 256 && (accounts[t].state == WaitForRequest ==> accounts[t].completed == 0)
           && (ExitDfc(t) in ds ==> accounts[t].state == Dying)
    }

    lemma CallsKnown(accounts: map<Thread, Account>)
      requires Valid() && accounts == map t | t in threads :: AccountOf(t)
      ensures MayRun(accounts, dfcs) && Accounted(accounts, [])
    {
      forall d | d in dfcs ensures d.t in threads { assert d in Waiting(); }
      forall t | t in threads
        ensures t.completedRequests < 256 && (t.state == WaitForRequest ==> t.completedRequests == 0)
        ensures ExitDfc(t) in dfcs ==> t.state == Dying
      {
        assert ThreadOk(t) && (ExitDfc(t) in dfcs ==> ExitDfc(t) in Waiting());
      }
    }

    lemma CallKnown(accounts: map<Thread, Account>, ds: seq<Dfc>, d: Dfc)
      requires MayRun(accounts, ds) && d in ds
      ensures d.t in accounts
    {}

    // What the calls have done to the threads, in terms of the calls.
    lemma CallsDone(accounts: map<Thread, Account>, ds: seq<Dfc>)
      requires Accounted(accounts, ds) && MayRun(accounts, ds)
      ensures threads == accounts.Keys
      ensures forall t :: t in threads ==> AccountOf(t) == AfterDfcs(accounts[t], ds, t) && t.sent == accounts[t].sent + Completions(ds, t)
      ensures forall t :: t in threads && ExitDfc(t) in ds ==> t.state == Dead
      ensures forall t :: t in threads && accounts[t].state == WaitForRequest && Completions(ds, t) > 0 ==>
        t.state == Ready && t.returned == accounts[t].returned + 1
      ensures forall t :: t in threads && ExitDfc(t) !in ds && Completions(ds, t) == 0 ==> AccountOf(t) == accounts[t]
    {
      forall t | t in threads
        ensures t.sent == accounts[t].sent + Completions(ds, t) && (ExitDfc(t) in ds ==> t.state == Dead)
        ensures accounts[t].state == WaitForRequest && Completions(ds, t) > 0 ==> t.state == Ready && t.returned == accounts[t].returned + 1
        ensures ExitDfc(t) !in ds && Completions(ds, t) == 0 ==> AccountOf(t) == accounts[t]
      {
        DfcsDone(accounts[t], ds, t);
      }
    }

    // No list has changed, and no reschedule has been asked for.
    twostate predicate Still()
      reads this
    {
      queues == old(queues) && rescheduleNeeded == old(rescheduleNeeded)
    }

    // So many timer interrupts.
    method Ticks(n: nat)
      requires Valid() && Roomy()
      modifies `uptime, `timerCompletionTime, `timerUserPtr, `dfcs, `queued, `readyList, `queues, `rescheduleNeeded
      modifies threads`prev, threads`next, threads`on, threads`timeslice
      ensures Valid() && Roomy() && uptime == old(uptime) + n && (old(rescheduleNeeded) ==> rescheduleNeeded) && (n == 0 ==> Still())
    {
      hide Valid, Yielded;
      for i := 0 to n
        invariant Valid() && Roomy() && uptime == old(uptime) + i && (old(rescheduleNeeded) ==> rescheduleNeeded) && (i == 0 ==> Still())
      {
        SysTick();
      }
    }

    // reschedule and scheduleThread: the first ready thread runs, with a whole slice of time.
    // If there is none the processor is idle.
    method Reschedule()
      requires Valid() && |queues| > 0
      modifies `currentThread, threads`timeslice
      ensures Valid() && currentThread == (if queues[0] == [] then null else queues[0][0])
      ensures currentThread == null <==> forall q :: q in threads ==> q.state != Ready
      ensures currentThread != null ==> currentThread in threads && currentThread.state == Ready && currentThread.timeslice == THREAD_TIMESLICE
    {
      hide Lists, ThreadOk, ServerOk, Pending;
      var t := FindNextReadyThread();
      FirstReady();
      if t != null {
        t.timeslice := THREAD_TIMESLICE;
      }
      currentThread := t;
    }

    lemma FirstReady()
      requires Valid() && |queues| > 0
      ensures queues[0] == [] <==> forall q :: q in threads ==> q.state != Ready
    {
      assert OnList(0);
      forall q | q in threads ensures q.state == Ready ==> q in queues[0] { assert ThreadOk(q) && OffList(q); }
      if queues[0] != [] {
        QueueThreads(0);
        assert queues[0][0] in queues[0] && ThreadOk(queues[0][0]);
      }
    }

    // All queued calls are about to be run.
    method TakeAll()
      requires Valid() && running == []
      modifies `dfcs, `running
      ensures Valid() && running == old(dfcs) && dfcs == []
    {
      hide Lists, ThreadOk, ServerOk;
      running := dfcs;
      dfcs := [];
      assert Waiting() == old(Waiting());
    }

    method ClearReschedule()
      requires Valid()
      modifies `rescheduleNeeded
      ensures Valid() && !rescheduleNeeded
    {
      hide Lists, ThreadOk, ServerOk, Pending;
      rescheduleNeeded := false;
    }

    // sysTick; there is room for a call if the timer is due.
    method SysTick()
      requires Valid() && (timerCompletionTime == uptime + 1 ==> |dfcs| < MAX_DFCS)
      modifies `uptime, `timerCompletionTime, `timerUserPtr, `dfcs, `queued, `readyList, `queues, `rescheduleNeeded
      modifies threads`prev, threads`next, threads`on, threads`timeslice
      ensures Valid() && uptime == old(uptime) + 1 && Ticked(currentThread)
      ensures old(timerCompletionTime) != uptime || old(timerCompletionTime) == NEVER ==>
        dfcs == old(dfcs) && timerCompletionTime == old(timerCompletionTime)
      ensures old(timerCompletionTime) == uptime && old(timerCompletionTime) != NEVER ==>
        timerCompletionTime == NEVER && timerThread != null && dfcs == old(dfcs) + [CompleteDfc(timerThread, old(timerUserPtr))]
    {
      hide Valid, Yielded;
      Advance();
      var t := currentThread;
      if t != null && t.state == Ready {
        Spend(t);
      }
    }

    // The running thread t has used a tick of its slice of time. At the end of the slice it
    // yields, and another thread is to be scheduled.
    twostate predicate Ticked(t: Thread?)
      reads this, threads, if t == null then {} else {t}
    {
      if t != null && old(t.state) == Ready then
        && t.timeslice == (if old(t.timeslice) > 0 then old(t.timeslice) - 1 else 0) && SameSlices(t)
        && if t.timeslice == 0
           then |old(queues)| > 0 && t in old(queues[0]) && queues == old(queues)[0 := Yielded(old(queues[0]), t)] && rescheduleNeeded
           else queues == old(queues) && rescheduleNeeded == old(rescheduleNeeded)
      else queues == old(queues) && rescheduleNeeded == old(rescheduleNeeded) && SameSlices(null)
    }

    twostate predicate SameSlices(t: Thread?)
      reads this, threads
    {
      forall q :: q in threads && q in old(threads) && q != t ==> q.timeslice == old(q.timeslice)
    }

    // Time goes on; a timer that is due is completed by a deferred call.
    method Advance()
      requires Valid() && (timerCompletionTime == uptime + 1 ==> |dfcs| < MAX_DFCS)
      modifies `uptime, `timerCompletionTime, `timerUserPtr, `dfcs, `queued
      ensures Valid() && uptime == old(uptime) + 1 && (currentThread != null ==> currentThread in threads)
      ensures old(timerCompletionTime) != uptime || old(timerCompletionTime) == NEVER ==>
        dfcs == old(dfcs) && timerCompletionTime == old(timerCompletionTime)
      ensures old(timerCompletionTime) == uptime && old(timerCompletionTime) != NEVER ==>
        timerCompletionTime == NEVER && timerThread != null && dfcs == old(dfcs) + [CompleteDfc(timerThread, old(timerUserPtr))]
    {
      hide Lists, ThreadOk, ServerOk, Logged;
      uptime := uptime + 1;
      if uptime == timerCompletionTime && timerCompletionTime != NEVER {
        timerCompletionTime := NEVER;
        // the call takes ownership of the request
        var userPtr := timerUserPtr;
        timerUserPtr := 0;
        QueueDfc(CompleteDfc(timerThread, userPtr));
      }
    }

    // The running thread has used a tick.
    method Spend(t: Thread)
      requires Valid() && t in threads && t.state == Ready
      modifies `readyList, `queues, `rescheduleNeeded, threads`prev, threads`next, t`on, t`timeslice
      ensures Valid() && Ticked(t)
    {
      hide Valid, Yielded;
      QueuesFor();
      Count(t);
      if t.timeslice == 0 {
        Yield(t);
        SetReschedule();
      }
    }

    method Count(t: Thread)
      requires Valid() && t in threads && t.state == Ready
      modifies t`timeslice
      ensures Valid() && t.timeslice == (if old(t.timeslice) > 0 then old(t.timeslice) - 1 else 0)
    {
      hide Lists, ThreadOk, ServerOk, Pending;
      if t.timeslice > 0 {
        t.timeslice := t.timeslice - 1;
      }
    }

    method SetReschedule()
      requires Valid()
      modifies `rescheduleNeeded
      ensures Valid() && rescheduleNeeded
    {
      hide Lists, ThreadOk, ServerOk, Pending;
      rescheduleNeeded := true;
    }

    // KExecSetTimer.
    method SetTimer(t: Thread, userPtr: nat, time: nat) returns (err: Error)
      requires Valid() && t in threads && userPtr != 0
      modifies `timerThread, `timerUserPtr, `timerCompletionTime, `readyList, `queues, threads`prev, threads`next
      modifies t`on, t`state, t`completedRequests, t`sent, t`returned
      ensures Valid() && (err == AlreadyExists <==> old(timerThread) != null && old(timerThread) != t) && err != NotFound
      ensures err == NoError ==> timerThread == t
      ensures err == NoError && time <= uptime ==>
        timerCompletionTime == NEVER && timerUserPtr == 0 && AccountOf(t) == Signalled(old(AccountOf(t)))
      ensures err == NoError && time > uptime ==> timerCompletionTime == time && timerUserPtr == userPtr
      ensures err != NoError || time > uptime ==> AccountOf(t) == old(AccountOf(t)) && queues == old(queues)
      ensures err != NoError ==> timerThread == old(timerThread) && timerCompletionTime == old(timerCompletionTime) && timerUserPtr == old(timerUserPtr)
    {
      if timerThread != null && timerThread != t {
        return AlreadyExists;
      }
      ArmTimer(t, userPtr, if time <= uptime then NEVER else time);
      if time <= uptime {
        // the time has come already
        RequestSignal(t);
        DisarmTimer();
      }
      err := NoError;
    }

    // The request has been completed.
    method DisarmTimer()
      requires Valid() && timerCompletionTime == NEVER
      modifies `timerUserPtr
      ensures Valid() && timerUserPtr == 0
    {
      hide Lists, ThreadOk, ServerOk, Pending;
      timerUserPtr := 0;
    }

    method ArmTimer(t: Thread, userPtr: nat, time: nat)
      requires Valid() && t in threads && userPtr != 0
      modifies `timerThread, `timerUserPtr, `timerCompletionTime
      ensures Valid() && timerThread == t && timerUserPtr == userPtr && timerCompletionTime == time
    {
      hide Lists, ThreadOk, ServerOk, Pending;
      timerThread, timerUserPtr, timerCompletionTime := t, userPtr, time;
    }

    // findNextReadyThread: the first in the list, as all its threads are ready.
    method FindNextReadyThread() returns (t: Thread?)
      requires Valid()
      ensures t == null <==> forall q :: q in threads ==> q.state != Ready
      ensures t != null ==> t.state == Ready && t in threads && queues[0] != [] && t == queues[0][0]
    {
      t := readyList;
      assert OnList(0);
      RingFacts(readyList, queues[0]);
      if t == null {
        forall q | q in threads ensures q.state != Ready { assert ThreadOk(q) && OffList(q); }
      } else {
        QueueThreads(0);
        assert t in queues[0] && ThreadOk(t);
      }
    }

    // All threads are dead, and all servers free.
    constructor (threads: set<Thread>, servers: seq<Server>)
      requires NoDup(servers) && forall s :: s in servers ==> s.id == 0 && s.thread == null && s.userPtr == 0 && s.blockedClientList == null
      requires forall t :: t in threads ==> t.prev == null && t.next == null && t.state == Dead && t.on == -1 && t.completedRequests == 0 && t.sent == t.returned
      ensures Valid() && this.threads == threads && this.servers == servers && forall q :: q in queues ==> q == []
    {
      this.threads, this.servers := threads, servers;
      readyList, uptime, timerCompletionTime, timerThread, timerUserPtr := null, 0, NEVER, null, 0;
      currentThread, rescheduleNeeded, dfcs, running, queued, ran := null, false, [], [], [], [];
      queues := seq(|servers| + 1, i => []);
    }
  }

  function Total(ns: seq<nat>): nat {
    if ns == [] then 0 else Total(ns[..|ns| - 1]) + ns[|ns| - 1]
  }

  lemma TotalNext(ns: seq<nat>, i: nat)
    requires i < |ns|
    ensures Total(ns[..i + 1]) == Total(ns[..i]) + ns[i]
  {
    assert ns[..i + 1][..i] == ns[..i];
  }

  lemma LastIsBefore(xs: seq<Thread>)
    requires xs != [] && Ring(xs[0], xs)
    ensures xs[0].prev == xs[|xs| - 1]
  {
    assert Joined(xs, |xs| - 1);
  }

  lemma RingFacts(head: Thread?, xs: seq<Thread>)
    requires Ring(head, xs)
    ensures NoDup(xs) && head == if xs == [] then null else xs[0]
  {}

  lemma WithoutMembers(xs: seq<Thread>, i: nat)
    requires NoDup(xs) && i < |xs|
    ensures forall t :: t in Without(xs, i) <==> t in xs && t != xs[i]
  {
    forall t | t in xs && t != xs[i] ensures t in Without(xs, i) {
      var k :| 0 <= k < |xs| && xs[k] == t;
      assert Without(xs, i)[if k < i then k else k - 1] == t;
    }
    forall t | t in Without(xs, i) ensures t in xs && t != xs[i] {
      var k :| 0 <= k < |xs| - 1 && Without(xs, i)[k] == t;
      assert xs[if k < i then k else k + 1] == t;
    }
  }

  lemma WithMembers(xs: seq<Thread>, t: Thread, i: nat)
    requires i <= |xs|
    ensures forall q :: q in With(xs, t, i) <==> q in xs || q == t
  {
    assert xs == xs[..i] + xs[i..];
  }

  // Others keep their order when a thread yields; it is last but one, or last if there is
  // at most one other.
  lemma YieldOrder(k: SuperPage, xs: seq<Thread>, t: Thread)
    requires NoDup(xs) && t in xs
    ensures var rest, ys := Without(xs, k.Place(xs, t)), k.Yielded(xs, t);
      && |ys| == |xs| && (if |xs| <= 2 then ys == rest + [t] else ys == rest[..|xs| - 2] + [t, rest[|xs| - 2]])
  {}

  lemma YieldsLast(k: SuperPage, xs: seq<Thread>, t: Thread)
    requires NoDup(xs) && t in xs
    ensures |k.Yielded(xs, t)| == |xs| && (k.Yielded(xs, t)[|xs| - 1] == t <==> |xs| <= 2)
  {
    hide Without, SuperPage.Yielded;
    var rest := Without(xs, k.Place(xs, t));
    WithoutMembers(xs, k.Place(xs, t));
    YieldOrder(k, xs, t);
    WithoutSize(xs, k.Place(xs, t));
    if |xs| > 2 { assert rest[|xs| - 2] in rest; }
  }

  lemma WithoutSize(xs: seq<Thread>, i: nat)
    requires i < |xs|
    ensures |Without(xs, i)| == |xs| - 1
  {}

  // Completions are counted in one byte: none is lost if and only if fewer than 256 are
  // unread.
  lemma NoneLost(t: Thread)
    requires ThreadOk(t)
    ensures t.sent == t.returned + t.completedRequests <==> t.sent - t.returned < 256
  {}
}
