/** The slot shared by a spawned process and its handle: a result and at most one waker. */
module Processes {
  import opened Options
  import opened Wakers

  /** Polling a handle from `process`, when the slot holds a result or not: the waker kept
      afterwards, and whether the poll was Ready. */
  function PollSlot(result: bool, waker: Option<nat>, process: nat): (Option<nat>, bool) {
    if result then (waker, true) else (Some(process), false)
  }

  /** Who is woken when the result is stored; the waker slot is then empty. */
  function Woken(waker: Option<nat>): seq<nat> {
    match waker case None => [] case Some(p) => [p]
  }

  /** Whoever polled the handle last, and nobody else, is woken when the result comes; once it is
      there, a poll is Ready. */
  lemma LatestPollerIsWoken(waker: Option<nat>, process: nat)
    ensures var (waker', ready) := PollSlot(false, waker, process); !ready && Woken(waker') == [process]
    ensures PollSlot(true, waker, process).1 && Woken(None) == []
  {
  }

  class ProcessSlot<T> {
    var result: Option<T>
    var waker: Option<nat>

    constructor ()
      ensures result == None && waker == None
    {
      result, waker := None, None;
    }

    /** The process returns: its value is stored, and whoever awaits the handle is woken. */
    method Finish(value: T, ready: ReadyQueue)
      modifies this, ready
      ensures result == Some(value) && waker == None
      ensures ready.ids == old(ready.ids) + Woken(old(waker))
    {
      result := Some(value);
      if waker.Some? {
        ready.Wake(waker.value);
        waker := None;
      }
    }

    /** Polling the handle takes the result, once; before that, the latest poller is the one to
        be woken. */
    method Poll(process: nat) returns (r: Option<T>)
      modifies this
      ensures r == old(result) && result == None
      ensures (waker, r.Some?) == PollSlot(old(result.Some?), old(waker), process)
    {
      r := result;
      if r.Some? {
        result := None;
        return;
      }
      if waker != Some(process) {
        waker := Some(process);
      }
    }
  }
}
