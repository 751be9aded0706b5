/** The objects of PreemptiveResource. Every method is tied to the pool's `Step`. */
module PreemptiveResources {
  import opened Options
  import opened Wakers
  import opened Events
  import opened WaitQueues
  import opened Preemption

  class PreemptiveRequest {
    const id: nat
    const priority: nat
    const cells: Cells
    var registered: bool
    var consumed: bool
    ghost var dropped: bool
    ghost var redeemed: bool

    constructor (id: nat, owner: nat, priority: nat)
      ensures this.id == id && fresh(cells) && cells.request == id
      ensures View() == Request(owner, priority, false, false, false, false, false, false)
    {
      this.id, this.priority := id, priority;
      cells := new Cells(id, owner);
      registered, consumed, dropped, redeemed := false, false, false, false;
    }

    ghost function View(): Request
      reads this, cells
    {
      Request(cells.owner, priority, registered, consumed, cells.canceled, cells.granted, dropped, redeemed)
    }
  }

  class PreemptiveGuard {
    const id: nat
    const signal: Event
    var preempted: bool
    ghost var dropped: bool

    constructor (id: nat)
      ensures this.id == id && fresh(signal) && View() == Guard(false, false)
    {
      this.id := id;
      signal := new Event();
      preempted, dropped := false, false;
    }

    ghost function View(): Guard
      reads this
    {
      Guard(preempted, dropped)
    }
  }

  /** A holder entry shares the `preempted` cell and the signal with the guard. */
  datatype HolderEntry = HolderEntry(priority: nat, id: nat, guard: PreemptiveGuard)

  datatype Outcome = Free | Preempt(victim: nat) | Block

  function HolderViews(hs: seq<HolderEntry>): seq<Holder> {
    seq(|hs|, i requires 0 <= i < |hs| => Holder(hs[i].priority, hs[i].id))
  }

  ghost function RequestViews(rs: seq<PreemptiveRequest>): (v: seq<Request>)
    reads rs, set r | r in rs :: r.cells
    ensures |v| == |rs| && forall i :: 0 <= i < |rs| ==> v[i] == rs[i].View()
  {
    if rs == [] then [] else RequestViews(rs[..|rs| - 1]) + [rs[|rs| - 1].View()]
  }

  ghost function GuardViews(gs: seq<PreemptiveGuard>): (v: seq<Guard>)
    reads gs
    ensures |v| == |gs| && forall i :: 0 <= i < |gs| ==> v[i] == gs[i].View()
  {
    if gs == [] then [] else GuardViews(gs[..|gs| - 1]) + [gs[|gs| - 1].View()]
  }

  class PreemptiveResource {
    const wq: WaitQueue
    var holders: seq<HolderEntry>
    var nextHolderId: nat
    var requests: seq<PreemptiveRequest>
    ghost var guards: seq<PreemptiveGuard>

    ghost function Cells(): set<Cells>
      reads this
    {
      set r | r in requests :: r.cells
    }

    ghost function View(): State
      reads this, wq, requests, guards, Cells()
    {
      State(wq.View(), HolderViews(holders), GuardViews(guards), RequestViews(requests))
    }

    ghost predicate Linked()
      reads this, wq
    {
      && nextHolderId == |guards|
      && (forall i :: 0 <= i < |requests| ==> requests[i].id == i && requests[i].cells.request == i)
      && (forall i :: 0 <= i < |guards| ==> guards[i].id == i)
      && (forall i :: 0 <= i < |holders| ==>
            holders[i].id < |guards| && holders[i].guard == guards[holders[i].id])
      && (forall w :: w in wq.waiters ==>
            w.cells.request < |requests| && requests[w.cells.request].cells == w.cells)
    }

    ghost predicate Valid()
      reads this, wq, requests, guards, Cells()
    {
      Linked() && Inv(View())
    }

    twostate lemma OnlyRequestChanged(r: PreemptiveRequest)
      requires requests == old(requests) && r in requests
      requires forall i :: 0 <= i < |requests| ==> requests[i].id == i
      requires forall x :: x in requests && x != r ==> x.View() == old(x.View())
      ensures r.id < |requests| && requests[r.id] == r
      ensures RequestViews(requests) == old(RequestViews(requests))[r.id := r.View()]
    {
    }

    twostate lemma OnlyGuardChanged(g: PreemptiveGuard)
      requires guards == old(guards) && g in guards
      requires forall i :: 0 <= i < |guards| ==> guards[i].id == i
      requires forall x :: x in guards && x != g ==> x.View() == old(x.View())
      ensures g.id < |guards| && guards[g.id] == g
      ensures GuardViews(guards) == old(GuardViews(guards))[g.id := g.View()]
    {
    }

    constructor (capacity: nat)
      requires capacity > 0
      ensures Valid() && View() == Init(capacity) && fresh(wq)
    {
      wq := new WaitQueue(capacity);
      holders, nextHolderId, requests, guards := [], 0, [], [];
      new;
      assert Outstanding(View()) == {};
    }

    method Request(owner: nat, priority: nat) returns (r: PreemptiveRequest)
      requires Valid()
      modifies this`requests
      ensures Valid() && fresh(r) && requests == old(requests) + [r] && r.id == |old(requests)|
      ensures View() == Step(old(View()), New(owner, priority))
    {
      hide Inv, RequestViews, GuardViews;
      StepKeepsInv(View(), New(owner, priority));
      ghost var before := View();
      r := new PreemptiveRequest(|requests|, owner, priority);
      requests := requests + [r];
      assert View().reqs == Step(before, New(owner, priority)).reqs;
    }

    /** Builds the guard of a unit just taken and adds its holder entry. */
    method Grant(priority: nat) returns (g: PreemptiveGuard)
      requires Linked()
      modifies this`holders, this`nextHolderId, this`guards
      ensures Linked() && fresh(g) && fresh(g.signal) && g in guards && g.id == |guards| - 1
      ensures guards == old(guards) + [g]
      ensures View() == GrantUnit(old(View()), priority)
    {
      hide RequestViews, GuardViews;
      ghost var before := View();
      g := new PreemptiveGuard(nextHolderId);
      holders := holders + [HolderEntry(priority, nextHolderId, g)];
      nextHolderId := nextHolderId + 1;
      guards := guards + [g];
      assert HolderViews(holders) == before.holders + [Holder(priority, |before.guards|)];
      assert GuardViews(guards) == before.guards + [Guard(false, false)];
    }

    /** Takes the unit of the holder at index `k`: its signal fires and its entry goes. */
    method EvictHolder(k: nat, ready: ReadyQueue)
      requires Linked() && k < |holders|
      modifies this`holders, holders[k].guard, holders[k].guard.signal, ready
      ensures Linked() && old(holders[k].guard).preempted && old(holders[k].guard).signal.fired
      ensures View() == Evict(old(View()), k)
      ensures ready.ids == old(ready.ids) + old(holders[k].guard.signal.waiters)
    {
      hide RequestViews, GuardViews;
      ghost var before := View();
      var victim := holders[k];
      holders := Remove(holders, k);
      victim.guard.preempted := true;
      victim.guard.signal.Fire(ready);
      assert HolderViews(holders) == Remove(before.holders, k);
      OnlyGuardChanged(victim.guard);
    }

    method ParkOnce(r: PreemptiveRequest)
      requires Linked() && r in requests
      modifies wq, r`registered
      ensures Linked() && r.id < |requests| && View() == ParkRequest(old(View()), r.id)
    {
      hide RequestViews, GuardViews, Register;
      assert requests[r.id] == r;
      if !r.registered {
        wq.Park(r.priority, r.cells);
      }
      r.registered := true;
      OnlyRequestChanged(r);
    }

    /** What a poll without a grant comes to; blocking parks the request unless it is parked. */
    method Decide(r: PreemptiveRequest) returns (outcome: Outcome)
      requires Linked() && r in requests && !r.cells.granted
      modifies wq, r`registered
      ensures Linked()
      ensures var s := old(View()); var (q, acquired) := TryAcquire(s.q);
              match outcome
              case Free => acquired && View() == s.(q := q)
              case Preempt(k) => !acquired && Victim(s.holders, r.priority) == Some(k) && View() == s
              case Block => !acquired && Victim(s.holders, r.priority) == None && View() == ParkRequest(s, r.id)
    {
      hide RequestViews, GuardViews, Victim, ParkRequest;
      assert requests[r.id] == r;
      var acquired := wq.Acquire();
      OnlyRequestChanged(r);
      if acquired {
        return Free;
      }
      match Victim(HolderViews(holders), r.priority)
      case Some(k) =>
        outcome := Preempt(k);
      case None =>
        ParkOnce(r);
        outcome := Block;
    }

    method TakeUnit(r: PreemptiveRequest, victim: Option<nat>, ready: ReadyQueue) returns (guard: PreemptiveGuard)
      requires Linked() && r in requests && (victim.Some? ==> victim.value < |holders|)
      modifies this`holders, this`nextHolderId, this`guards, r`consumed, guards, set x | x in guards :: x.signal, ready
      ensures Linked() && r.consumed && fresh(guard) && guards == old(guards) + [guard]
      ensures r.id < |requests| && View() == Take(old(View()), r.id, victim)
    {
      hide RequestViews, GuardViews, GrantUnit, Evict;
      r.consumed := true;
      OnlyRequestChanged(r);
      if victim.Some? {
        EvictHolder(victim.value, ready);
      }
      guard := Grant(r.priority);
    }

    /** A unit that was handed over becomes a holder. */
    method Redeem(r: PreemptiveRequest, ready: ReadyQueue) returns (guard: PreemptiveGuard)
      requires Valid() && r in requests && Enabled(View(), Preemption.Action.Poll(r.id)) && r.cells.granted
      modifies this`holders, this`nextHolderId, this`guards, r, guards, set x | x in guards :: x.signal, ready
      ensures Valid() && View() == Step(old(View()), Preemption.Action.Poll(r.id))
      ensures r.consumed && guards == old(guards) + [guard] && fresh(guard)
    {
      hide Inv, RequestViews, GuardViews, GrantUnit, Evict, Take, Victim, TryAcquire, ParkRequest;
      StepKeepsInv(View(), Preemption.Action.Poll(r.id));
      assert requests[r.id] == r;
      r.redeemed := true;
      OnlyRequestChanged(r);
      guard := TakeUnit(r, None, ready);
    }

    /** Polling the future: a set `granted` cell, then a free unit, then a victim, then the
        queue, in that order on every poll. */
    method Poll(r: PreemptiveRequest, ready: ReadyQueue) returns (g: Option<PreemptiveGuard>)
      requires Valid() && r in requests && Enabled(View(), Preemption.Action.Poll(r.id))
      modifies this`holders, this`nextHolderId, this`guards, wq, r, guards, set x | x in guards :: x.signal, ready
      ensures Valid() && requests == old(requests)
      ensures View() == Step(old(View()), Preemption.Action.Poll(r.id))
      ensures g.Some? <==> r.consumed
      ensures if g.None? then guards == old(guards) else guards == old(guards) + [g.value] && fresh(g.value)
    {
      hide Inv, RequestViews, GuardViews, GrantUnit, Evict, Take, Victim, TryAcquire, ParkRequest;
      StepKeepsInv(View(), Preemption.Action.Poll(r.id));
      assert requests[r.id] == r;
      var guard: PreemptiveGuard;
      if r.cells.granted {
        guard := Redeem(r, ready);
      } else {
        var outcome := Decide(r);
        if outcome.Block? {
          return None;
        }
        guard := TakeUnit(r, if outcome.Preempt? then Some(outcome.victim) else None, ready);
      }
      g := Some(guard);
    }

    /** Where only the `granted` cell of request `next` was set, only its view changed. */
    twostate lemma OnlyGranted(next: Option<Cells>)
      requires requests == old(requests)
      requires forall i :: 0 <= i < |requests| ==> requests[i].id == i && requests[i].cells.request == i
      requires forall r :: r in requests ==>
                 r.View() == if next == Some(r.cells) then old(r.View()).(granted := true) else old(r.View())
      requires next.Some? ==> next.value.request < |requests| && requests[next.value.request].cells == next.value
      ensures var vs := old(RequestViews(requests));
              RequestViews(requests) ==
              if next.None? then vs
              else vs[next.value.request := vs[next.value.request].(granted := true)]
    {
    }

    /** Releasing one unit that no holder and no outstanding grant accounts for any more. */
    method Release(ready: ReadyQueue)
      requires Linked() && FlagsInv(View()) && HeapInv(View()) && HoldersInv(View()) && UnitsInv(View(), 1)
      modifies wq, Cells()`granted, ready
      ensures Valid() && View() == ReleaseUnit(old(View()))
      ensures ready.ids == old(ready.ids) + Wakes(old(View()).reqs, Released(old(View())))
    {
      hide Inv, FlagsInv, HoldersInv, UnitsInv, RequestViews, GuardViews, WaitQueues.Release;
      ghost var before := View();
      ReleaseKeepsInv(before);
      SpareUnitCounted(before);
      ghost var next := wq.ReleaseUnit(ready, Canceled(before.reqs));
      OnlyGranted(next);
    }

    /** A unit that was handed over but never turned into a holder is passed on. */
    method PassOn(r: PreemptiveRequest, ready: ReadyQueue)
      requires Valid() && r in requests && Enabled(View(), Preemption.Action.DropRequest(r.id))
      requires !r.consumed && r.cells.granted
      modifies wq, r, Cells()`granted, ready
      ensures Valid() && View() == Step(old(View()), Preemption.Action.DropRequest(r.id))
      ensures ready.ids ==
              old(ready.ids) + Wakes(old(View()).reqs, Woken(old(View()), Preemption.Action.DropRequest(r.id)))
    {
      hide Inv, FlagsInv, HeapInv, HoldersInv, UnitsInv, RequestViews, GuardViews, ReleaseUnit;
      hide Step, Woken, Wakes, Canceled;
      ghost var before := View();
      DropRequestIs(before, r.id);
      UnpickedGrant(before, r.id);
      assert requests[r.id] == r;
      r.dropped, r.redeemed := true, true;
      OnlyRequestChanged(r);
      Release(ready);
    }

    /** Any other request only marks itself; one that is parked leaves a dead entry behind. */
    method Abandon(r: PreemptiveRequest)
      requires Valid() && r in requests && Enabled(View(), Preemption.Action.DropRequest(r.id))
      requires r.consumed || !r.cells.granted
      modifies r, r.cells`canceled
      ensures Valid() && View() == Step(old(View()), Preemption.Action.DropRequest(r.id))
      ensures Wakes(old(View()).reqs, Woken(old(View()), Preemption.Action.DropRequest(r.id))) == []
    {
      hide Inv, RequestViews, GuardViews, ReleaseUnit, Step, Woken, Wakes, Canceled;
      StepKeepsInv(View(), Preemption.Action.DropRequest(r.id));
      DropRequestIs(View(), r.id);
      assert requests[r.id] == r;
      r.dropped := true;
      if !r.consumed && r.registered {
        r.cells.canceled := true;
      }
      OnlyRequestChanged(r);
    }

    /** Dropping the future. */
    method DropRequest(r: PreemptiveRequest, ready: ReadyQueue)
      requires Valid() && r in requests && Enabled(View(), Preemption.Action.DropRequest(r.id))
      modifies wq, r, Cells(), ready
      ensures Valid() && View() == Step(old(View()), Preemption.Action.DropRequest(r.id))
      ensures ready.ids ==
              old(ready.ids) + Wakes(old(View()).reqs, Woken(old(View()), Preemption.Action.DropRequest(r.id)))
    {
      hide Inv, RequestViews, GuardViews, Step, Woken, Wakes;
      assert requests[r.id] == r;
      if !r.consumed && r.cells.granted {
        PassOn(r, ready);
      } else {
        Abandon(r);
      }
    }

    /** The unit of a guard that was not preempted is released. */
    method ReturnUnit(g: PreemptiveGuard, ready: ReadyQueue)
      requires Valid() && g in guards && Enabled(View(), Preemption.Action.DropGuard(g.id)) && !g.preempted
      modifies this`holders, wq, g, Cells()`granted, ready
      ensures Valid() && View() == Step(old(View()), Preemption.Action.DropGuard(g.id))
      ensures ready.ids ==
              old(ready.ids) + Wakes(old(View()).reqs, Woken(old(View()), Preemption.Action.DropGuard(g.id)))
    {
      hide Inv, FlagsInv, HeapInv, HoldersInv, UnitsInv, RequestViews, GuardViews, ReleaseUnit, Canceled, Wakes;
      hide Step, Woken, HolderIndex, Remove;
      ghost var before := View();
      DropGuardIs(before, g.id);
      LostGuard(before, g.id);
      assert guards[g.id] == g;
      g.dropped := true;
      OnlyGuardChanged(g);
      ghost var mid := before.(holders := Remove(before.holders, HolderIndex(before.holders, g.id).value),
                               guards := before.guards[g.id := before.guards[g.id].(dropped := true)]);
      RemoveEntry(g.id);
      assert View() == mid;
      Release(ready);
    }

    /** Dropping a guard: nothing if it was preempted, otherwise its holder entry goes and the
        unit is released. */
    method DropGuard(g: PreemptiveGuard, ready: ReadyQueue)
      requires Valid() && g in guards && Enabled(View(), Preemption.Action.DropGuard(g.id))
      modifies this`holders, wq, g, Cells()`granted, ready
      ensures Valid() && View() == Step(old(View()), Preemption.Action.DropGuard(g.id))
      ensures ready.ids ==
              old(ready.ids) + Wakes(old(View()).reqs, Woken(old(View()), Preemption.Action.DropGuard(g.id)))
    {
      hide Inv, FlagsInv, HeapInv, HoldersInv, UnitsInv, RequestViews, GuardViews, ReleaseUnit, Canceled, Wakes;
      if !g.preempted {
        ReturnUnit(g, ready);
        return;
      }
      StepKeepsInv(View(), Preemption.Action.DropGuard(g.id));
      WakesNobody(View().reqs);
      assert guards[g.id] == g;
      g.dropped := true;
      OnlyGuardChanged(g);
    }

    /** The holder entry of a guard goes, if it has one. */
    method RemoveEntry(id: nat)
      requires Linked()
      modifies this`holders
      ensures Linked()
      ensures HolderViews(holders) ==
              var hs := old(HolderViews(holders));
              match HolderIndex(hs, id) case None => hs case Some(k) => Remove(hs, k)
    {
      match HolderIndex(HolderViews(holders), id)
      case None =>
      case Some(k) =>
        ghost var before := HolderViews(holders);
        holders := Remove(holders, k);
        assert HolderViews(holders) == Remove(before, k);
    }
  }
}
