/** The objects of Container, with the loops of its wake cascade. Every method is tied to the
    container's `Step`. */
module ContainerResources {
  import opened Wakers
  import opened Containers
  import ContainerLaws

  /** The two cells a request future shares with its queue entry. */
  class Marks {
    const request: nat
    const owner: nat
    var done: bool
    var canceled: bool

    constructor (request: nat, owner: nat)
      ensures this.request == request && this.owner == owner && !done && !canceled
    {
      this.request, this.owner := request, owner;
      done, canceled := false, false;
    }
  }

  class ContainerRequest {
    const id: nat
    const kind: Kind
    const amount: real
    const marks: Marks
    var registered: bool
    ghost var dropped: bool
    ghost var finished: bool
    ghost var arrival: nat

    constructor (id: nat, owner: nat, kind: Kind, amount: real)
      ensures this.id == id && fresh(marks) && marks.request == id
      ensures View() == Request(owner, kind, amount, false, false, false, false, false, 0)
    {
      this.id, this.kind, this.amount := id, kind, amount;
      marks := new Marks(id, owner);
      registered, dropped, finished, arrival := false, false, false, 0;
    }

    ghost function View(): Request
      reads this, marks
    {
      Request(marks.owner, kind, amount, registered, marks.done, marks.canceled, dropped, finished, arrival)
    }
  }

  datatype Parked = Parked(amount: real, marks: Marks)

  function ParkedViews(ps: seq<Parked>): seq<Waiter> {
    seq(|ps|, i requires 0 <= i < |ps| => Waiter(ps[i].marks.request, ps[i].amount))
  }

  lemma ParkedTail(ps: seq<Parked>)
    requires ps != []
    ensures ParkedViews(ps)[1..] == ParkedViews(ps[1..])
    ensures ParkedViews(ps)[0] == Waiter(ps[0].marks.request, ps[0].amount) && |ParkedViews(ps)| == |ps|
  {
  }

  lemma ParkedAppend(ps: seq<Parked>, p: Parked)
    ensures ParkedViews(ps + [p]) == ParkedViews(ps) + [Waiter(p.marks.request, p.amount)]
  {
  }

  ghost function Views(rs: seq<ContainerRequest>): (v: seq<Request>)
    reads rs, set r | r in rs :: r.marks
    ensures |v| == |rs| && forall i :: 0 <= i < |rs| ==> v[i] == rs[i].View()
  {
    if rs == [] then [] else Views(rs[..|rs| - 1]) + [rs[|rs| - 1].View()]
  }

  /** The ready queue received exactly the wakes made since. */
  ghost predicate Woke(wakes: seq<nat>, wakes': seq<nat>, ids: seq<nat>, ids': seq<nat>) {
    wakes <= wakes' && ids' == ids + wakes'[|wakes|..]
  }

  lemma WokeThese(wakes: seq<nat>, ids: seq<nat>, more: seq<nat>)
    ensures Woke(wakes, wakes + more, ids, ids + more)
  {
  }

  lemma WokeNobody(wakes: seq<nat>, ids: seq<nat>)
    ensures Woke(wakes, wakes, ids, ids)
  {
    assert wakes[|wakes|..] == [] && ids + [] == ids;
  }

  lemma WokeThen(w0: seq<nat>, w1: seq<nat>, w2: seq<nat>, i0: seq<nat>, i1: seq<nat>, i2: seq<nat>)
    requires Woke(w0, w1, i0, i1) && Woke(w1, w2, i1, i2)
    ensures Woke(w0, w2, i0, i2)
  {
    assert w2[|w0|..] == w1[|w0|..] + w2[|w1|..];
  }

  class Container {
    const capacity: real
    var level: real
    var getWaiters: seq<Parked>
    var putWaiters: seq<Parked>
    var requests: seq<ContainerRequest>
    ghost var initial: real
    ghost var arrivals: nat
    ghost var commits: seq<nat>
    ghost var wakes: seq<nat>

    ghost function AllMarks(): set<Marks>
      reads this
    {
      set r | r in requests :: r.marks
    }

    ghost function View(): Tank
      reads this, requests, AllMarks()
    {
      Tank(capacity, initial, level, ParkedViews(getWaiters), ParkedViews(putWaiters), Views(requests),
           arrivals, commits, wakes)
    }

    ghost predicate Entry(p: Parked)
      reads this
    {
      p.marks.request < |requests| && requests[p.marks.request].marks == p.marks
    }

    ghost predicate Linked()
      reads this
    {
      && (forall i :: 0 <= i < |requests| ==> requests[i].id == i && requests[i].marks.request == i)
      && (forall p :: p in getWaiters ==> Entry(p))
      && (forall p :: p in putWaiters ==> Entry(p))
    }

    ghost predicate Valid()
      reads this, requests, AllMarks()
    {
      Linked() && Inv(View())
    }

    twostate lemma OnlyChanged(r: ContainerRequest)
      requires requests == old(requests) && r in requests
      requires forall i :: 0 <= i < |requests| ==> requests[i].id == i
      requires forall x :: x in requests && x != r ==> x.View() == old(x.View())
      ensures r.id < |requests| && requests[r.id] == r
      ensures Views(requests) == old(Views(requests))[r.id := r.View()]
    {
    }

    constructor (capacity: real, level: real)
      requires capacity > 0.0 && 0.0 <= level <= capacity
      ensures Valid() && View() == Init(capacity, level)
    {
      this.capacity, this.level, initial := capacity, level, level;
      getWaiters, putWaiters, requests := [], [], [];
      arrivals, commits, wakes := 0, [], [];
      new;
      hide Inv, FlagsInv, QueueInv, CommitsInv, Fifo, LevelInv;
      assert View() == Init(capacity, level);
      ContainerLaws.InitInv(capacity, level);
    }

    method Request(owner: nat, kind: Kind, amount: real) returns (r: ContainerRequest)
      requires Valid() && 0.0 < amount <= capacity
      modifies this`requests
      ensures Valid() && fresh(r) && fresh(r.marks) && requests == old(requests) + [r] && r.id == |old(requests)|
      ensures View() == Step(old(View()), New(owner, kind, amount))
    {
      hide Inv, Views;
      ghost var before := View();
      ContainerLaws.StepKeepsInv(before, New(owner, kind, amount));
      r := new ContainerRequest(|requests|, owner, kind, amount);
      requests := requests + [r];
      assert Views(requests) == Step(before, New(owner, kind, amount)).reqs;
    }

    /** Commits a waiter just popped from the head of its queue. */
    method Commit(p: Parked, kind: Kind, ready: ReadyQueue)
      requires Linked() && Entry(p)
      modifies this`level, this`commits, this`wakes, p.marks`done, ready
      ensures Linked()
      ensures var s := old(View()); var j := p.marks.request;
              View() == s.(level := s.level + Change(kind, p.amount), commits := s.commits + [j],
                           reqs := s.reqs[j := s.reqs[j].(done := true)], wakes := s.wakes + [s.reqs[j].owner])
      ensures ready.ids == old(ready.ids) + [p.marks.owner] && wakes == old(wakes) + [p.marks.owner]
    {
      hide Views, ParkedViews;
      level := level + Change(kind, p.amount);
      p.marks.done := true;
      ready.Wake(p.marks.owner);
      commits := commits + [p.marks.request];
      wakes := wakes + [p.marks.owner];
      OnlyChanged(requests[p.marks.request]);
    }

    method PopGet(ready: ReadyQueue, commit: bool)
      requires Linked() && getWaiters != []
      modifies this`level, this`getWaiters, this`commits, this`wakes, AllMarks()`done, ready
      ensures Linked() && |getWaiters| < |old(getWaiters)|
      ensures View() == if commit then CommitHead(old(View()), Get) else PopHead(old(View()), Get)
      ensures Woke(old(wakes), wakes, old(ready.ids), ready.ids)
    {
      hide Views, ParkedViews, Woke;
      var front := getWaiters[0];
      assert front in getWaiters && Entry(front);
      ParkedTail(getWaiters);
      assert forall p :: p in getWaiters[1..] ==> p in getWaiters;
      getWaiters := getWaiters[1..];
      if commit {
        Commit(front, Get, ready);
        WokeThese(old(wakes), old(ready.ids), [front.marks.owner]);
      } else {
        WokeNobody(wakes, ready.ids);
      }
    }

    method PopPut(ready: ReadyQueue, commit: bool)
      requires Linked() && putWaiters != []
      modifies this`level, this`putWaiters, this`commits, this`wakes, AllMarks()`done, ready
      ensures Linked() && |putWaiters| < |old(putWaiters)|
      ensures View() == if commit then CommitHead(old(View()), Put) else PopHead(old(View()), Put)
      ensures Woke(old(wakes), wakes, old(ready.ids), ready.ids)
    {
      hide Views, ParkedViews, Woke;
      var front := putWaiters[0];
      assert front in putWaiters && Entry(front);
      ParkedTail(putWaiters);
      assert forall p :: p in putWaiters[1..] ==> p in putWaiters;
      putWaiters := putWaiters[1..];
      if commit {
        Commit(front, Put, ready);
        WokeThese(old(wakes), old(ready.ids), [front.marks.owner]);
      } else {
        WokeNobody(wakes, ready.ids);
      }
    }

    lemma HeadIsDead(ps: seq<Parked>)
      requires Linked() && ps != [] && Entry(ps[0])
      ensures Dead(View(), ParkedViews(ps)[0]) == ps[0].marks.canceled
    {
    }

    method WakeGetWaiters(ready: ReadyQueue) returns (serviced: bool)
      requires Linked()
      modifies this`level, this`getWaiters, this`commits, this`wakes, AllMarks()`done, ready
      ensures Linked() && (View(), serviced) == Serve(old(View()), Get)
      ensures Woke(old(wakes), wakes, old(ready.ids), ready.ids)
    {
      hide Views, CommitHead, PopHead, Dead, Linked, Serve, Woke;
      WokeNobody(wakes, ready.ids);
      serviced := false;
      while |getWaiters| > 0
        invariant Linked() && Woke(old(wakes), wakes, old(ready.ids), ready.ids)
        invariant Serve(View(), Get).0 == Serve(old(View()), Get).0
        invariant (serviced || Serve(View(), Get).1) == Serve(old(View()), Get).1
        decreases |getWaiters|
      {
        var front := getWaiters[0];
        GetEntry();
        HeadIsDead(getWaiters);
        ServeHead(View(), Get);
        ghost var w, ids := wakes, ready.ids;
        if front.marks.canceled {
          PopGet(ready, false);
          WokeThen(old(wakes), w, wakes, old(ready.ids), ids, ready.ids);
        } else if level >= front.amount {
          PopGet(ready, true);
          WokeThen(old(wakes), w, wakes, old(ready.ids), ids, ready.ids);
          serviced := true;
        } else {
          break;
        }
      }
      ServeHead(View(), Get);
    }

    lemma GetEntry()
      requires Linked() && getWaiters != []
      ensures Entry(getWaiters[0])
    {
      assert getWaiters[0] in getWaiters;
    }

    lemma PutEntry()
      requires Linked() && putWaiters != []
      ensures Entry(putWaiters[0])
    {
      assert putWaiters[0] in putWaiters;
    }

    method WakePutWaiters(ready: ReadyQueue) returns (serviced: bool)
      requires Linked()
      modifies this`level, this`putWaiters, this`commits, this`wakes, AllMarks()`done, ready
      ensures Linked() && (View(), serviced) == Serve(old(View()), Put)
      ensures Woke(old(wakes), wakes, old(ready.ids), ready.ids)
    {
      hide Views, CommitHead, PopHead, Dead, Linked, Serve, Woke;
      WokeNobody(wakes, ready.ids);
      serviced := false;
      while |putWaiters| > 0
        invariant Linked() && Woke(old(wakes), wakes, old(ready.ids), ready.ids)
        invariant Serve(View(), Put).0 == Serve(old(View()), Put).0
        invariant (serviced || Serve(View(), Put).1) == Serve(old(View()), Put).1
        decreases |putWaiters|
      {
        var front := putWaiters[0];
        PutEntry();
        HeadIsDead(putWaiters);
        ServeHead(View(), Put);
        ghost var w, ids := wakes, ready.ids;
        if front.marks.canceled {
          PopPut(ready, false);
          WokeThen(old(wakes), w, wakes, old(ready.ids), ids, ready.ids);
        } else if level + front.amount <= capacity {
          PopPut(ready, true);
          WokeThen(old(wakes), w, wakes, old(ready.ids), ids, ready.ids);
          serviced := true;
        } else {
          break;
        }
      }
      ServeHead(View(), Put);
    }

    method TriggerCascade(ready: ReadyQueue)
      requires Linked()
      modifies this`level, this`getWaiters, this`putWaiters, this`commits, this`wakes, AllMarks()`done, ready
      ensures Linked() && View() == Cascade(old(View()))
      ensures Woke(old(wakes), wakes, old(ready.ids), ready.ids)
    {
      hide Views, Serve, Linked, Cascade, Woke;
      WokeNobody(wakes, ready.ids);
      var more := true;
      while more
        invariant Linked() && Woke(old(wakes), wakes, old(ready.ids), ready.ids)
        invariant (if more then Cascade(View()) else View()) == Cascade(old(View()))
        decreases more, |View().gets| + |View().puts|
      {
        CascadeRound(View());
        ghost var w0, ids0 := wakes, ready.ids;
        var servicedGet := WakeGetWaiters(ready);
        WokeThen(old(wakes), w0, wakes, old(ready.ids), ids0, ready.ids);
        ghost var w1, ids1 := wakes, ready.ids;
        var servicedPut := WakePutWaiters(ready);
        WokeThen(old(wakes), w1, wakes, old(ready.ids), ids1, ready.ids);
        more := servicedGet || servicedPut;
      }
    }

    /** The immediate path of a first poll, before the cascade. */
    method TakeNow(r: ContainerRequest)
      requires Linked() && r in requests && !r.marks.done
      modifies this`level, this`arrivals, this`commits, r
      ensures r.finished
      ensures Linked() && r.id < |requests| && View() == CommitFresh(old(View()), r.id)
    {
      hide Views;
      level := level + Change(r.kind, r.amount);
      commits := commits + [r.id];
      r.arrival, r.finished := arrivals, true;
      arrivals := arrivals + 1;
      OnlyChanged(r);
    }

    method Enqueue(r: ContainerRequest)
      requires Linked() && r in requests
      modifies this`getWaiters, this`putWaiters, this`arrivals, r
      ensures r.finished == old(r.finished)
      ensures Linked() && r.id < |requests| && View() == Park(old(View()), r.id)
    {
      hide Views, ParkedViews;
      assert requests[r.id] == r;
      var p := Parked(r.amount, r.marks);
      if r.kind.Get? {
        ParkedAppend(getWaiters, p);
        getWaiters := getWaiters + [p];
      } else {
        ParkedAppend(putWaiters, p);
        putWaiters := putWaiters + [p];
      }
      r.arrival, r.registered := arrivals, true;
      arrivals := arrivals + 1;
      OnlyChanged(r);
    }

    method HasLiveWaiter(kind: Kind) returns (live: bool)
      requires Linked()
      ensures live == HasLive(View(), Queue(View(), kind))
    {
      hide Views;
      var ps := if kind.Get? then getWaiters else putWaiters;
      live := false;
      for k := 0 to |ps|
        invariant live ==> HasLive(View(), ParkedViews(ps))
        invariant !live ==> forall j :: 0 <= j < k ==> Dead(View(), ParkedViews(ps)[j])
      {
        assert ps[k] in ps && Entry(ps[k]);
        assert Dead(View(), ParkedViews(ps)[k]) == ps[k].marks.canceled;
        if !ps[k].marks.canceled {
          live := true;
        }
      }
    }

    /** Polling the future: `done` first, then the immediate path unless a live waiter of the same
        kind is queued, then the queue. */
    method Poll(r: ContainerRequest, ready: ReadyQueue) returns (done: bool)
      requires Valid() && r in requests && Enabled(View(), Containers.Action.Poll(r.id))
      modifies this`level, this`getWaiters, this`putWaiters, this`arrivals, this`commits, this`wakes
      modifies r, AllMarks()`done, ready
      ensures Valid() && requests == old(requests)
      ensures View() == Step(old(View()), Containers.Action.Poll(r.id))
      ensures done <==> r.finished
      ensures Woke(old(wakes), wakes, old(ready.ids), ready.ids)
    {
      hide Inv, Views, Cascade, CommitFresh, Park, HasLive, Woke;
      WokeNobody(wakes, ready.ids);
      ContainerLaws.StepKeepsInv(View(), Containers.Action.Poll(r.id));
      assert requests[r.id] == r && View().reqs[r.id] == r.View();
      if r.marks.done {
        r.finished := true;
        OnlyChanged(r);
        return true;
      }
      var blocked := HasLiveWaiter(r.kind);
      var fits := if r.kind.Get? then level >= r.amount else level + r.amount <= capacity;
      if !r.registered && fits && !blocked {
        TakeNow(r);
        TriggerCascade(ready);
        done := true;
      } else {
        if !r.registered {
          Enqueue(r);
        }
        done := false;
      }
    }

    /** Dropping the future only marks a parked entry; no queue is served. */
    method DropRequest(r: ContainerRequest)
      requires Valid() && r in requests && Enabled(View(), Containers.Action.DropRequest(r.id))
      modifies r, r.marks`canceled
      ensures Valid() && requests == old(requests)
      ensures View() == Step(old(View()), Containers.Action.DropRequest(r.id))
    {
      hide Inv, Views;
      ContainerLaws.StepKeepsInv(View(), Containers.Action.DropRequest(r.id));
      assert requests[r.id] == r;
      r.dropped := true;
      if r.registered && !r.marks.done {
        r.marks.canceled := true;
      }
      OnlyChanged(r);
    }
  }
}
