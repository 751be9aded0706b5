/** The objects of Resource and PriorityResource. Every method is tied to the pool's `Step`. */
module Resources {
  import opened Options
  import opened Wakers
  import opened WaitQueues
  import opened Pools

  /** A request future. Its `canceled` and `granted` cells are shared with the queue entry.
      `dropped` and `guarded` record, for the proof only, whether the future is gone and whether
      the guard it produced is alive. */
  class ResourceRequest {
    const id: nat
    const priority: nat
    const cells: Cells
    var registered: bool
    var consumed: bool
    ghost var dropped: bool
    ghost var guarded: bool

    constructor (id: nat, owner: nat, priority: nat)
      ensures this.id == id && fresh(cells) && cells.request == id
      ensures View() == Request(owner, priority, false, false, false, false, false, false)
    {
      this.id, this.priority := id, priority;
      cells := new Cells(id, owner);
      registered, consumed, dropped, guarded := false, false, false, false;
    }

    ghost function View(): Request
      reads this, cells
    {
      Request(cells.owner, priority, registered, consumed, cells.canceled, cells.granted, dropped, guarded)
    }

    /** A set `granted` cell wins; otherwise the free-unit test is made on every poll, and only
        the first failing poll parks. */
    method Poll(state: WaitQueue) returns (done: bool)
      requires cells.request == id
      modifies this, state
      ensures (state.View(), View(), done) == PollOne(old(state.View()), old(View()), id)
      ensures forall w :: w in state.waiters ==> w in old(state.waiters) || w.cells == cells
    {
      if cells.granted {
        consumed, guarded := true, true;
        return true;
      }
      done := state.Acquire();
      if done {
        consumed, guarded := true, true;
      } else {
        if !registered {
          state.Park(priority, cells);
        }
        registered := true;
      }
    }

    method Leave() returns (passOn: bool)
      modifies this, cells`canceled
      ensures (View(), passOn) == Pools.Leave(old(View()))
    {
      dropped := true;
      passOn := !consumed && cells.granted;
      if !consumed && !cells.granted && registered {
        cells.canceled := true;
      }
    }
  }

  ghost function Views(rs: seq<ResourceRequest>): (v: seq<Request>)
    reads rs, set r | r in rs :: r.cells
    ensures |v| == |rs| && forall i :: 0 <= i < |rs| ==> v[i] == rs[i].View()
  {
    if rs == [] then [] else Views(rs[..|rs| - 1]) + [rs[|rs| - 1].View()]
  }

  class Resource {
    const state: WaitQueue
    /** Every request ever made, by id. */
    var requests: seq<ResourceRequest>

    ghost function Cells(): set<Cells>
      reads this
    {
      set r | r in requests :: r.cells
    }

    ghost function View(): Pool
      reads this, state, requests, Cells()
    {
      Pool(state.View(), Views(requests))
    }

    ghost predicate Linked()
      reads this, state
    {
      && (forall i :: 0 <= i < |requests| ==> requests[i].id == i && requests[i].cells.request == i)
      && (forall w :: w in state.waiters ==>
            w.cells.request < |requests| && requests[w.cells.request].cells == w.cells)
    }

    ghost predicate Valid()
      reads this, state, requests, Cells()
    {
      Linked() && Inv(View())
    }

    /** Where only request `r` changed, only its view changed. */
    twostate lemma OnlyChanged(r: ResourceRequest)
      requires requests == old(requests) && r in requests
      requires forall i :: 0 <= i < |requests| ==> requests[i].id == i
      requires forall x :: x in requests && x != r ==> x.View() == old(x.View())
      ensures r.id < |requests| && requests[r.id] == r
      ensures Views(requests) == old(Views(requests))[r.id := r.View()]
    {
    }

    constructor (capacity: nat)
      requires capacity > 0
      ensures Valid() && View() == Init(capacity) && fresh(state)
    {
      state := new WaitQueue(capacity);
      requests := [];
      new;
      InitInv(capacity);
    }

    method Request(owner: nat, priority: nat) returns (r: ResourceRequest)
      requires Valid()
      modifies this
      ensures Valid() && fresh(r) && requests == old(requests) + [r] && r.id == |old(requests)|
      ensures View() == Step(old(View()), New(owner, priority)).pool
    {
      hide Inv, InvButOne, Views;
      ghost var before := View();
      r := new ResourceRequest(|requests|, owner, priority);
      requests := requests + [r];
      assert View().reqs == Step(before, New(owner, priority)).pool.reqs;
      StepKeepsInv(before, New(owner, priority));
    }

    method Poll(r: ResourceRequest) returns (done: bool)
      requires Valid() && r in requests && Enabled(View(), Pools.Action.Poll(r.id))
      modifies state, r
      ensures Valid() && requests == old(requests)
      ensures var o := Step(old(View()), Pools.Action.Poll(r.id)); View() == o.pool && done == o.ready
    {
      hide Inv, Views, PollOne;
      StepKeepsInv(View(), Pools.Action.Poll(r.id));
      assert requests[r.id] == r;
      done := r.Poll(state);
      OnlyChanged(r);
    }

    /** Where only the `granted` cell of request `next` was set, only its view changed. */
    twostate lemma OnlyGranted(next: Option<Cells>)
      requires requests == old(requests)
      requires forall i :: 0 <= i < |requests| ==> requests[i].id == i && requests[i].cells.request == i
      requires forall r :: r in requests ==>
                 r.View() == if next == Some(r.cells) then old(r.View()).(granted := true) else old(r.View())
      requires next.Some? ==> next.value.request < |requests| && requests[next.value.request].cells == next.value
      ensures var vs := old(Views(requests));
              Views(requests) ==
              if next.None? then vs
              else vs[next.value.request := vs[next.value.request].(granted := true)]
    {
    }

    /** Releasing on behalf of request `r`, whose own flags are already updated. */
    method Release(ready: ReadyQueue)
      requires Linked() && InvButOne(View())
      modifies state, Cells()`granted, ready
      ensures Valid() && requests == old(requests)
      ensures var o := ReleaseUnit(old(View()));
              && View() == o.pool
              && ready.ids == old(ready.ids) + match o.woken case None => [] case Some(j) => [o.pool.reqs[j].owner]
    {
      hide Inv, InvButOne, Views, WaitQueues.Release, HandOff, Abs;
      ghost var before := View();
      ReleaseKeepsInv(before);
      UnitStillCounted(before);
      ghost var next := state.ReleaseUnit(ready, Canceled(before));
      OnlyGranted(next);
    }

    /** Dropping the future. */
    method DropRequest(r: ResourceRequest, ready: ReadyQueue)
      requires Valid() && r in requests && Enabled(View(), Pools.Action.DropRequest(r.id))
      modifies state, r, Cells(), ready
      ensures Valid() && requests == old(requests)
      ensures var o := Step(old(View()), Pools.Action.DropRequest(r.id));
              && View() == o.pool
              && ready.ids == old(ready.ids) + match o.woken case None => [] case Some(j) => [o.pool.reqs[j].owner]
    {
      hide Inv, InvButOne, Views, Pools.Leave, ReleaseUnit;
      ghost var before := View();
      StepKeepsInv(before, Pools.Action.DropRequest(r.id));
      assert requests[r.id] == r;
      var passOn := r.Leave();
      OnlyChanged(r);
      if passOn {
        assert InvButOne(View()) by { UnpickedGrant(before, r.id); }
        Release(ready);
      }
    }

    /** Dropping the guard that request `r` produced. */
    method DropGuard(r: ResourceRequest, ready: ReadyQueue)
      requires Valid() && r in requests && Enabled(View(), Pools.Action.DropGuard(r.id))
      modifies state, r, Cells()`granted, ready
      ensures Valid() && requests == old(requests)
      ensures var o := Step(old(View()), Pools.Action.DropGuard(r.id));
              && View() == o.pool
              && ready.ids == old(ready.ids) + match o.woken case None => [] case Some(j) => [o.pool.reqs[j].owner]
    {
      hide Inv, InvButOne, Views;
      ghost var before := View();
      assert requests[r.id] == r;
      r.guarded := false;
      assert View().reqs == before.reqs[r.id := before.reqs[r.id].(guard := false)];
      LostGuard(before, r.id);
      Release(ready);
    }
  }
}
