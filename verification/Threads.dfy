// Threads and the circular lists that are threaded through them (k/scheduler.c).

module Threads {
  import opened Common

  datatype State = Ready | BlockedFromSvc | Dying | Dead | WaitForRequest
  datatype Reason = NoReason | OnGetch | WaitingForServerConnect | InServerConnect | Exited(code: int)

  const THREAD_TIMESLICE: nat := 25

  class Thread {
    var prev: Thread?
    var next: Thread?
    var state: State
    var timeslice: nat
    var completedRequests: nat  // modulo 256
    var exitReason: Reason      // also the reason for being blocked
    ghost var on: int           // the list the thread is on, or -1
    ghost var sent: nat         // requests completed for the thread,
    ghost var returned: nat     // and those it has been told about

    constructor ()
      ensures prev == null && next == null && state == Dead && on == -1 && completedRequests == 0 && sent == 0 && returned == 0
    {
      prev, next, state, timeslice, completedRequests, exitReason := null, null, Dead, 0, 0, NoReason;
      on, sent, returned := -1, 0, 0;
    }
  }

  // What a thread has been sent and told of, and its state.
  datatype Account = Account(state: State, sent: nat, returned: nat, completed: nat, reason: Reason)

  ghost function AccountOf(t: Thread): Account
    reads t`state, t`sent, t`returned, t`completedRequests, t`exitReason
  {
    Account(t.state, t.sent, t.returned, t.completedRequests, t.exitReason)
  }

  function Follow(xs: seq<Thread>, i: nat): Thread
    requires i < |xs|
  {
    if i + 1 < |xs| then xs[i + 1] else xs[0]
  }

  // The circular list that begins at 'head' has the threads xs, in this order.
  ghost predicate Ring(head: Thread?, xs: seq<Thread>)
    reads xs`prev, xs`next
  {
    && (head == null <==> xs == []) && (xs != [] ==> head == xs[0]) && NoDup(xs)
    && forall i :: 0 <= i < |xs| ==> Joined(xs, i)
  }

  ghost predicate Joined(xs: seq<Thread>, i: nat)
    requires i < |xs|
    reads xs`prev, xs`next
  {
    xs[i].next == Follow(xs, i) && Follow(xs, i).prev == xs[i]
  }

  function Without(xs: seq<Thread>, i: nat): seq<Thread>
    requires i < |xs|
  {
    xs[..i] + xs[i + 1..]
  }

  function Before(xs: seq<Thread>, i: nat): nat
    requires i < |xs|
  {
    if i == 0 then |xs| - 1 else i - 1
  }

  lemma BeforeFollows(xs: seq<Thread>, i: nat)
    requires i < |xs|
    ensures Follow(xs, Before(xs, i)) == xs[i]
  {}

  // Whom element j of the shorter list had as neighbour.
  lemma WithoutFollow(xs: seq<Thread>, i: nat, j: nat)
    requires NoDup(xs) && i < |xs| && j < |xs| - 1
    ensures var j0 := if j < i then j else j + 1;
      && Without(xs, i)[j] == xs[j0] && xs[j0] != xs[i]
      && Follow(Without(xs, i), j) == (if j0 == Before(xs, i) then Follow(xs, i) else Follow(xs, j0))
      && (j0 == Before(xs, i) <==> xs[j0] == xs[Before(xs, i)])
      && (j0 == Before(xs, i) ==> Follow(xs, i) != xs[i])
      && (j0 != Before(xs, i) ==> Follow(xs, j0) != xs[i] && Follow(xs, j0) != Follow(xs, i))
  {}

  lemma WithoutNoDup(xs: seq<Thread>, i: nat)
    requires NoDup(xs) && i < |xs|
    ensures NoDup(Without(xs, i))
  {}

  // thread_dequeue; the new head is returned.
  method Dequeue(t: Thread, head: Thread?, ghost xs: seq<Thread>, ghost i: nat) returns (head': Thread?)
    requires Ring(head, xs) && i < |xs| && xs[i] == t
    modifies xs`prev, xs`next
    ensures Ring(head', Without(xs, i)) && t.prev == null && t.next == null
  {
    hide NoDup;
    head' := head;
    BeforeFollows(xs, i);
    ghost var p := Before(xs, i);
    assert Joined(xs, i) && Joined(xs, p);
    t.prev.next := t.next;
    t.next.prev := t.prev;
    if head == t {
      if t == t.next {
        head' := null;
      } else {
        head' := t.next;
      }
    }
    t.prev := null;
    t.next := null;
    WithoutNoDup(xs, i);
    HeadAfter(xs, i);
    forall j | 0 <= j < |xs| - 1 ensures Joined(Without(xs, i), j) {
      WithoutFollow(xs, i, j);
      assert old(Joined(xs, if j < i then j else j + 1));
    }
  }

  // Is the only element its own successor?
  lemma HeadAfter(xs: seq<Thread>, i: nat)
    requires NoDup(xs) && i < |xs|
    ensures Follow(xs, i) == xs[i] <==> |xs| == 1
    ensures i == 0 <==> xs[i] == xs[0]
    ensures i == 0 && |xs| > 1 ==> Follow(xs, i) == Without(xs, i)[0]
    ensures i > 0 ==> Without(xs, i)[0] == xs[0]
  {}

  // The list with t at place i.
  function With(xs: seq<Thread>, t: Thread, i: nat): seq<Thread>
    requires i <= |xs|
  {
    xs[..i] + [t] + xs[i..]
  }

  lemma WithNoDup(xs: seq<Thread>, t: Thread, i: nat)
    requires NoDup(xs) && t !in xs && i <= |xs|
    ensures NoDup(With(xs, t, i))
  {
    assert forall j :: 0 <= j < |xs| ==> xs[j] in xs;
  }

  // Whom element j of the longer list has as neighbour. Before the first place and after
  // the last one are the same in the circle.
  lemma WithFollow(xs: seq<Thread>, t: Thread, i: nat, j: nat)
    requires NoDup(xs) && t !in xs && i <= |xs| && xs != [] && j <= |xs|
    ensures var at := if i == |xs| then 0 else i;
      && (j == i ==> With(xs, t, i)[j] == t && Follow(With(xs, t, i), j) == xs[at])
      && (j != i ==>
            var j0 := if j < i then j else j - 1;
            && With(xs, t, i)[j] == xs[j0] && (xs[j0] == xs[Before(xs, at)] <==> j0 == Before(xs, at))
            && Follow(With(xs, t, i), j) == (if j0 == Before(xs, at) then t else Follow(xs, j0))
            && (j0 != Before(xs, at) ==> Follow(xs, j0) != xs[at]))
  {
    assert forall q :: 0 <= q < |xs| ==> xs[q] in xs;
  }

  // thread_enqueueBefore: before element i; before the first one is also after the last.
  method EnqueueBefore(t: Thread, before: Thread?, ghost xs: seq<Thread>, ghost i: nat)
    requires t.prev == null && t.next == null && t !in xs && i <= |xs|
    requires Ring(if xs == [] then null else xs[0], xs) && before == (if xs == [] then null else if i == |xs| then xs[0] else xs[i])
    modifies t`prev, t`next, xs`prev, xs`next
    ensures Ring(With(xs, t, i)[0], With(xs, t, i))
  {
    hide NoDup;
    ghost var at := if i == |xs| then 0 else i;
    WithNoDup(xs, t, i);
    if before == null {
      // the list is empty
      t.next := t;
      t.prev := t;
      assert With(xs, t, i) == [t] && Joined([t], 0);
    } else {
      BeforeFollows(xs, at);
      assert Joined(xs, at) && Joined(xs, Before(xs, at));
      t.next := before;
      t.prev := before.prev;
      before.prev.next := t;
      before.prev := t;
      forall j | 0 <= j < |xs| + 1 ensures Joined(With(xs, t, i), j) {
        WithFollow(xs, t, i, j);
        if j != i { assert old(Joined(xs, if j < i then j else j - 1)); }
      }
    }
  }
}
