// Orders of threads that are not what the comments of the kernel say (k/scheduler.c,
// k/kipc.c).

module KernelFindings {
  import opened Common
  import opened Threads
  import opened Kernel

  // Threads and servers that are not in use.
  method Begin(servers: seq<Server>) returns (k: SuperPage, a: Thread, b: Thread, c: Thread)
    requires NoDup(servers) && forall s :: s in servers ==> s.id == 0 && s.thread == null && s.userPtr == 0 && s.blockedClientList == null
    ensures fresh(k) && fresh(a) && fresh(b) && fresh(c) && a != b && a != c && b != c
    ensures k.Valid() && k.threads == {a, b, c} && k.servers == servers && k.queues == seq(|servers| + 1, i => [])
    ensures a.state == b.state == c.state == Dead
  {
    hide SuperPage.Valid;
    a := new Thread();
    b := new Thread();
    c := new Thread();
    k := new SuperPage({a, b, c}, servers);
    k.QueuesFor();
    assert forall j :: 0 <= j < |k.queues| ==> k.queues[j] in k.queues;
  }

  method StartThree(k: SuperPage, a: Thread, b: Thread, c: Thread)
    requires k.Valid() && k.threads == {a, b, c} && a != b && a != c && b != c && a.state == b.state == c.state == Dead
    requires k.queues == seq(|k.servers| + 1, i => [])
    modifies k`readyList, k`queues, k.threads
    ensures k.Valid() && k.queues == seq(|k.servers| + 1, i => [])[0 := [c, b, a]] && a.state == b.state == c.state == Ready
    ensures a.sent == a.returned == 0
  {
    hide SuperPage.Valid;
    k.Start(a);
    k.Start(b);
    k.Start(c);
    assert k.queues[0] == [c, b, a];
  }

  // Three threads are ready, and the first one yields: it comes before the last one.
  method YieldRun() returns (k: SuperPage, a: Thread, b: Thread, c: Thread, ghost before: seq<Thread>)
    ensures k.Valid() && |k.queues| == 1 && before == [c, b, a] && a != b && a != c && b != c
    ensures k.queues[0] == k.Yielded(before, c) == [b, c, a] && c.state == Ready
  {
    hide SuperPage.Valid, SuperPage.Yielded;
    k, a, b, c := Begin([]);
    StartThree(k, a, b, c);
    before := k.queues[0];
    ThreeYield(k, a, b, c);
    k.Yield(c);
  }

  lemma ThreeYield(k: SuperPage, a: Thread, b: Thread, c: Thread)
    ensures k.Yielded([c, b, a], c) == [b, c, a]
  {
    assert [c, b, a][1..] == [b, a];
  }

  // A client connects to the only server, which is busy.
  method ConnectOne(k: SuperPage, client: Thread)
    requires k.Valid() && client in k.threads && client.state == Ready
    requires |k.servers| == 1 && k.servers[0].id == 1 && k.servers[0].userPtr == 0 && |k.queues| == 2
    modifies k`readyList, k`queues, k.servers`blockedClientList, k.servers`userPtr, k.threads
    ensures k.Valid() && |k.queues| == 2 && k.queues[1] == old(k.queues[1]) + [client] && k.servers[0].userPtr == 0
    ensures client.exitReason == WaitingForServerConnect
    ensures forall q :: q in k.threads && q != client ==> q.exitReason == old(q.exitReason) && (old(q.state) == Ready ==> q.state == Ready)
  {
    hide SuperPage.Valid, SuperPage.LastOf;
    assert k.servers[0] in k.servers;
    var err := k.Connect(1, client);
  }

  // Two clients connect to a server that is busy. When it asks for a message, it gets the
  // one of the client that came last.
  method ServeRun() returns (k: SuperPage, a: Thread, b: Thread)
    ensures k.Valid() && |k.queues| == 2 && k.queues[1] == [a, b]
    ensures a.exitReason == WaitingForServerConnect && b.exitReason == InServerConnect
  {
    hide SuperPage.Valid;
    var t;
    k, t, a, b := BeginServer();
    ConnectOne(k, a);
    ConnectOne(k, b);
    assert k.queues[1] == [a, b];
    assert k.servers[0] in k.servers;
    ghost var _, _ := k.RequestServerMsg(t, 1);
  }

  // A server, and two threads that are ready.
  method BeginServer() returns (k: SuperPage, t: Thread, a: Thread, b: Thread)
    ensures fresh(k) && fresh(k.threads) && fresh(k.servers) && k.Valid() && k.threads == {t, a, b} && a != b && t != a && t != b
    ensures a.state == b.state == Ready && |k.queues| == 2 && k.queues[1] == []
    ensures |k.servers| == 1 && k.servers[0].id == 1 && k.servers[0].thread == t && k.servers[0].userPtr == 0
  {
    hide SuperPage.Valid;
    var s := new Server();
    k, t, a, b := Begin([s]);
    StartThree(k, t, a, b);
    assert k.servers[0] == s;
    var err := k.CreateServer(1, t);
  }

  // A thread that is ready gets n completions and then waits for one: it is told of them
  // modulo 256, that is, of all of them if and only if there are fewer.
  method CountRun(n: nat) returns (k: SuperPage, t: Thread, r: Option<nat>)
    ensures k.Valid() && t in k.threads && t.sent == n
    ensures r == (if n % 256 == 0 then None else Some(n % 256)) && t.returned == n % 256
    ensures (t.returned == n <==> n < 256) && t.state == if n % 256 == 0 then WaitForRequest else Ready
  {
    hide SuperPage.Valid;
    var b, c;
    k, t, b, c := Begin([]);
    StartThree(k, t, b, c);
    CountSignals(k, t, n);
    Counted(k, t);
    r := k.WaitForAnyRequest(t);
  }

  method CountSignals(k: SuperPage, t: Thread, n: nat)
    requires k.Valid() && t in k.threads && t.state == Ready
    modifies k`readyList, k`queues, k.threads
    ensures k.Valid() && t.state == Ready && t.sent == old(t.sent) + n && t.returned == old(t.returned)
  {
    hide SuperPage.Valid;
    for i := 0 to n
      invariant k.Valid() && t.state == Ready && t.sent == old(t.sent) + i && t.returned == old(t.returned)
    {
      k.RequestSignal(t);
    }
  }

  lemma Counted(k: SuperPage, t: Thread)
    requires k.Valid() && t in k.threads
    ensures t.completedRequests == (t.sent - t.returned) % 256
    ensures t.completedRequests == t.sent - t.returned <==> t.sent - t.returned < 256
  {
    assert ThreadOk(t);
    NoneLost(t);
  }

  // After 256 completions the thread waits, and has been told of none.
  method LostRun() returns (k: SuperPage, t: Thread, r: Option<nat>)
    ensures k.Valid() && t in k.threads && t.sent == 256 && t.returned == 0 && r == None && t.state == WaitForRequest
  {
    hide SuperPage.Valid;
    k, t, r := CountRun(256);
  }
}
