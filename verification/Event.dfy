/** A manual one-shot event: the trigger sets a latch and wakes everyone waiting. */
module Events {
  import opened Wakers

  datatype Latch = Latch(fired: bool, waiters: seq<nat>)

  /** Polling an awaitable from `process`: the latch afterwards, and whether it was Ready. */
  function PollLatch(e: Latch, process: nat): (Latch, bool) {
    if e.fired then (e, true)
    else (if process in e.waiters then e else e.(waiters := e.waiters + [process]), false)
  }

  /** Firing: the latch afterwards, and the processes woken, in order. */
  function FireLatch(e: Latch): (Latch, seq<nat>) {
    (Latch(true, []), e.waiters)
  }

  ghost predicate Distinct(ids: seq<nat>) {
    forall i, j :: 0 <= i < j < |ids| ==> ids[i] != ids[j]
  }

  lemma StaysDistinct(e: Latch, process: nat)
    requires Distinct(e.waiters)
    ensures Distinct(PollLatch(e, process).0.waiters) && Distinct(FireLatch(e).0.waiters)
  {
  }

  /** A poll before the event fires leaves the process registered, once, behind those who were; so
      however often each is polled, firing wakes each registered process exactly once. */
  lemma EachIsWokenOnce(e: Latch, process: nat)
    requires Distinct(e.waiters) && !e.fired
    ensures var (e', ready) := PollLatch(e, process); var woken := FireLatch(e').1;
            && !ready && !e'.fired && Distinct(e'.waiters)
            && multiset(woken)[process] == 1 && multiset(woken) - multiset{process} == multiset(e.waiters) - multiset{process}
            && e.waiters <= woken && FireLatch(e').0.fired && FireLatch(e').0.waiters == []
  {
    var e' := PollLatch(e, process).0;
    Once(e.waiters, process);
    Once(e'.waiters, process);
  }

  lemma {:induction false} Once(ids: seq<nat>, id: nat)
    requires Distinct(ids)
    ensures multiset(ids)[id] == if id in ids then 1 else 0
  {
    if ids != [] {
      var rest := ids[1..];
      assert ids == [ids[0]] + rest;
      Once(rest, id);
    }
  }

  class Event {
    var fired: bool
    var waiters: seq<nat>

    ghost function View(): Latch
      reads this
    {
      Latch(fired, waiters)
    }

    constructor ()
      ensures View() == Latch(false, [])
    {
      fired, waiters := false, [];
    }

    method Fire(ready: ReadyQueue)
      modifies this, ready
      ensures var (latch, woken) := FireLatch(old(View())); View() == latch && ready.ids == old(ready.ids) + woken
    {
      fired := true;
      ghost var woken := [];
      while |waiters| > 0
        invariant fired && woken + waiters == old(waiters)
        invariant ready.ids == old(ready.ids) + woken
        decreases |waiters|
      {
        ready.Wake(waiters[0]);
        woken := woken + [waiters[0]];
        waiters := waiters[1..];
      }
    }

    /** Polling an awaitable of the event from `process`, whose waker is stored at most once. */
    method Poll(process: nat) returns (done: bool)
      modifies this`waiters
      ensures (View(), done) == PollLatch(old(View()), process)
    {
      if fired {
        return true;
      }
      if process !in waiters {
        waiters := waiters + [process];
      }
      done := false;
    }
  }
}
