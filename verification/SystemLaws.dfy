/** Every step of the machine keeps its invariant; what that says when a run returns. */
module SystemLaws {
  import opened Options
  import opened Systems
  import Events
  import Pools
  import Containers
  import Preemption
  import ContainerLaws
  import PreemptionLaws

  // ----- Leaves, one step -----

  predicate OfExecutor(a: Action) {
    a.Drain? || a.Take? || a.Suspend? || a.Finish? || a.Pop? || a.Advance? || a.Spawn?
  }

  predicate OfRecords(a: Action) {
    || a.Join? || a.NewTimer? || a.NewEvent? || a.Listen? || a.Fire?
    || ((a.Poll? || a.Drop?) && (a.leaf.Timer? || a.leaf.Signal? || a.leaf.Child?))
  }

  predicate OfResource(leaf: Leaf) {
    leaf.Unit? || leaf.Flow? || leaf.Lease?
  }

  /** A request for a resource does not change with the executor's tables. */
  lemma ResourceFrame(s: Sys, s': Sys, leaf: Leaf)
    requires OfResource(leaf) && s'.pools == s.pools && s'.tanks == s.tanks && s'.shops == s.shops
    ensures Exists(s', leaf) == Exists(s, leaf) && Live(s', leaf) == Live(s, leaf)
    ensures Exists(s, leaf) ==>
              && OwnerOf(s', leaf) == OwnerOf(s, leaf) && Armed(s', leaf) == Armed(s, leaf)
              && Complete(s', leaf) == Complete(s, leaf) && Sourced(s', leaf) && OnTime(s', leaf)
  {
  }

  lemma TablesStay(s: Sys, a: Action)
    requires Enabled(s, a) && (OfExecutor(a) || OfRecords(a))
    ensures var s' := Step(s, a); s'.pools == s.pools && s'.tanks == s.tanks && s'.shops == s.shops
  {
  }

  lemma TakeResourceLeaf(s: Sys, leaf: Leaf)
    requires LeavesInv(s) && s.current.None? && s.ready != [] && OfResource(leaf) && Live(TakeNext(s), leaf)
    ensures LeafInv(TakeNext(s), leaf)
  {
    hide Live, OwnerOf, Armed, Complete, Sourced, OnTime, Exists;
    ResourceFrame(s, TakeNext(s), leaf);
    LiveExists(s, leaf);
    assert LeafInv(s, leaf);
    assert forall p :: p in s.ready && p != s.ready[0] ==> p in s.ready[1..];
  }

  lemma ExecutorResourceLeaf(s: Sys, a: Action, leaf: Leaf)
    requires LeavesInv(s) && Enabled(s, a) && OfExecutor(a) && OfResource(leaf) && Live(Step(s, a), leaf)
    ensures LeafInv(Step(s, a), leaf)
  {
    hide Live, OwnerOf, Armed, Complete, Sourced, OnTime, Exists, TakeNext, LeavesInv;
    if a.Take? {
      TakeResourceLeaf(s, leaf);
    } else {
      TablesStay(s, a);
      ResourceFrame(s, Step(s, a), leaf);
      LiveExists(s, leaf);
      LeafOf(s, leaf);
      assert Mine(s, leaf) <==> s.current == Some(OwnerOf(s, leaf));
    }
  }

  lemma LeafOf(s: Sys, leaf: Leaf)
    requires LeavesInv(s) && Live(s, leaf)
    ensures LeafInv(s, leaf)
  {
  }

  /** What such a step leaves alone in the executor. */
  lemma RecordFrame(s: Sys, a: Action)
    requires Enabled(s, a) && OfRecords(a)
    ensures var s' := Step(s, a);
            && s'.current == s.current && s.ready <= s'.ready && |s'.procs| == |s.procs| && s'.pending == s.pending
            && (forall leaf :: leaf in s'.polled ==> leaf in s.polled || (a.Poll? && leaf == a.leaf))
            && (forall p :: 0 <= p < |s.procs| ==>
                  s'.procs[p].started == s.procs[p].started && s'.procs[p].finished == s.procs[p].finished)
  {
  }

  lemma RecordResourceLeaf(s: Sys, a: Action, leaf: Leaf)
    requires LeavesInv(s) && Enabled(s, a) && OfRecords(a) && OfResource(leaf) && Live(Step(s, a), leaf)
    ensures LeafInv(Step(s, a), leaf)
  {
    hide Live, OwnerOf, Armed, Complete, Sourced, OnTime, Exists, Step, Enabled;
    TablesStay(s, a);
    RecordFrame(s, a);
    ResourceFrame(s, Step(s, a), leaf);
    LiveExists(s, leaf);
    assert LeafInv(s, leaf);
  }

  lemma LiveExists(s: Sys, leaf: Leaf)
    ensures Live(s, leaf) ==> Exists(s, leaf)
    ensures Mine(s, leaf) ==> Exists(s, leaf)
  {
  }

  lemma DrainLeaf(s: Sys, leaf: Leaf)
    requires !OfResource(leaf) && Bounds(s) && LeavesInv(s) && Live(Admit(s), leaf)
    ensures LeafInv(Admit(s), leaf)
  {
    assert Live(s, leaf);
  }

  lemma TakeLeaf(s: Sys, leaf: Leaf)
    requires !OfResource(leaf) && Bounds(s) && LeavesInv(s)
    requires s.current.None? && s.ready != [] && Live(TakeNext(s), leaf)
    ensures LeafInv(TakeNext(s), leaf)
  {
    hide TableBounds, RequestBounds;
    assert Live(s, leaf) && LeafInv(s, leaf);
    hide LeavesInv;
    assert forall p :: p in s.ready && p != s.ready[0] ==> p in s.ready[1..];
  }

  lemma SuspendLeaf(s: Sys, on: Leaf, leaf: Leaf)
    requires !OfResource(leaf) && Bounds(s) && LeavesInv(s)
    requires s.current.Some? && (Mine(s, leaf) ==> leaf in s.polled) && Live(SuspendOn(s, on), leaf)
    ensures LeafInv(SuspendOn(s, on), leaf)
  {
    assert Live(s, leaf);
  }

  lemma FinishLeaf(s: Sys, leaf: Leaf)
    requires !OfResource(leaf) && Bounds(s) && LeavesInv(s)
    requires s.current.Some? && !Mine(s, leaf) && Live(FinishCurrent(s), leaf)
    ensures LeafInv(FinishCurrent(s), leaf)
  {
    assert Live(s, leaf);
  }

  lemma PopMembers(q: seq<Due>, k: nat)
    requires k < |q|
    ensures var q' := q[..k] + q[k + 1..];
            && (forall d :: d in q && d != q[k] ==> d in q')
            && (forall d :: d in q' ==> d in q)
  {
    var q' := q[..k] + q[k + 1..];
    forall d | d in q && d != q[k] ensures d in q' {
      var j :| 0 <= j < |q| && q[j] == d;
      assert q'[if j < k then j else j - 1] == d;
    }
  }

  lemma PopLeaf(s: Sys, k: nat, leaf: Leaf)
    requires !OfResource(leaf) && Bounds(s) && LeavesInv(s)
    requires s.current.None? && s.ready == [] && Earliest(s.queue, k) && Live(PopDue(s, k), leaf)
    ensures LeafInv(PopDue(s, k), leaf)
  {
    hide TableBounds, RequestBounds;
    assert Live(s, leaf) && LeafInv(s, leaf);
    hide LeavesInv;
    PopMembers(s.queue, k);
    assert forall d :: d in s.queue ==> s.queue[k].time <= d.time;
  }

  lemma AdvanceLeaf(s: Sys, until: real, leaf: Leaf)
    requires !OfResource(leaf) && Bounds(s) && LeavesInv(s)
    requires s.current.None? && s.ready == [] && s.now <= until && forall d :: d in s.queue ==> until <= d.time
    requires Live(MoveClock(s, until), leaf)
    ensures LeafInv(MoveClock(s, until), leaf)
  {
    assert Live(s, leaf);
  }

  lemma SpawnLeaf(s: Sys, leaf: Leaf)
    requires !OfResource(leaf) && Bounds(s) && LeavesInv(s)
    requires Live(SpawnProc(s), leaf)
    ensures LeafInv(SpawnProc(s), leaf)
  {
    assert Live(s, leaf);
  }

  lemma JoinLeaf(s: Sys, child: nat, leaf: Leaf)
    requires !OfResource(leaf) && Bounds(s) && LeavesInv(s)
    requires s.current.Some? && child < |s.procs| && Live(AddChild(s, child), leaf)
    ensures LeafInv(AddChild(s, child), leaf)
  {
    if leaf != Child(|s.children|) {
      assert Live(s, leaf);
    }
  }

  lemma NewTimerLeaf(s: Sys, deadline: real, leaf: Leaf)
    requires !OfResource(leaf) && Bounds(s) && LeavesInv(s)
    requires s.current.Some? && deadline >= s.now && Live(AddTimer(s, deadline), leaf)
    ensures LeafInv(AddTimer(s, deadline), leaf)
  {
    if leaf != Timer(|s.timers|) {
      assert Live(s, leaf);
    }
  }

  lemma NewEventLeaf(s: Sys, leaf: Leaf)
    requires !OfResource(leaf) && Bounds(s) && LeavesInv(s)
    requires Live(AddEvent(s), leaf)
    ensures LeafInv(AddEvent(s), leaf)
  {
    assert Live(s, leaf);
  }

  lemma ListenLeaf(s: Sys, e: nat, leaf: Leaf)
    requires !OfResource(leaf) && Bounds(s) && LeavesInv(s)
    requires s.current.Some? && e < |s.events| && Live(AddSignal(s, e), leaf)
    ensures LeafInv(AddSignal(s, e), leaf)
  {
    if leaf != Signal(|s.signals|) {
      assert Live(s, leaf);
    }
  }

  lemma FireLeaf(s: Sys, e: nat, leaf: Leaf)
    requires !OfResource(leaf) && Bounds(s) && LeavesInv(s)
    requires e < |s.events| && !s.events[e].fired && Live(FireEvent(s, e), leaf)
    ensures LeafInv(FireEvent(s, e), leaf)
  {
    assert Live(s, leaf);
  }

  lemma PollTimerLeaf(s: Sys, i: nat, leaf: Leaf)
    requires !OfResource(leaf) && Bounds(s) && LeavesInv(s)
    requires Mine(s, Timer(i)) && Live(PollTimer(s, i), leaf)
    ensures LeafInv(PollTimer(s, i), leaf)
  {
    var t, q' := s.timers[i], PollTimer(s, i).queue;
    assert !t.scheduled ==> q'[|s.queue|] == Due(t.deadline, t.owner);
    assert t.scheduled ==> q' == s.queue;
    assert Live(s, leaf);
  }

  lemma PollSignalLeaf(s: Sys, i: nat, leaf: Leaf)
    requires !OfResource(leaf) && Bounds(s) && LeavesInv(s)
    requires Mine(s, Signal(i)) && Live(PollSignal(s, i), leaf)
    ensures LeafInv(PollSignal(s, i), leaf)
  {
    assert Live(s, leaf);
  }

  lemma PollChildLeaf(s: Sys, i: nat, leaf: Leaf)
    requires !OfResource(leaf) && Bounds(s) && LeavesInv(s)
    requires Mine(s, Child(i)) && Live(PollChild(s, i), leaf)
    ensures LeafInv(PollChild(s, i), leaf)
  {
    assert Live(s, leaf);
  }

  lemma PollRecordLeaf(s: Sys, polled: Leaf, leaf: Leaf)
    requires !OfResource(leaf) && Bounds(s) && LeavesInv(s)
    requires Mine(s, polled) && !OfResource(polled) && Live(PollLeaf(s, polled), leaf)
    ensures LeafInv(PollLeaf(s, polled), leaf)
  {
    LiveExists(s, polled);
    hide Bounds, LeavesInv, LeafInv, PollTimer, PollSignal, PollChild;
    match polled
    case Timer(i) => PollTimerLeaf(s, i, leaf);
    case Signal(i) => PollSignalLeaf(s, i, leaf);
    case Child(i) => PollChildLeaf(s, i, leaf);
  }

  /** Dropping a leaf marks it over, and concerns no other. */
  lemma DropFrame(s: Sys, dropped: Leaf, leaf: Leaf)
    requires !OfResource(leaf) && !OfResource(dropped) && Live(s, dropped) && Live(DropLeaf(s, dropped), leaf)
    ensures var s' := DropLeaf(s, dropped);
            && Live(s, leaf) && OwnerOf(s', leaf) == OwnerOf(s, leaf) && Armed(s', leaf) == Armed(s, leaf)
            && Complete(s', leaf) == Complete(s, leaf) && Sourced(s', leaf) == Sourced(s, leaf)
            && OnTime(s', leaf) == OnTime(s, leaf)
            && s'.ready == s.ready && s'.current == s.current && s'.polled == s.polled && s'.procs == s.procs
  {
  }

  lemma DropRecordLeaf(s: Sys, dropped: Leaf, leaf: Leaf)
    requires !OfResource(leaf) && Bounds(s) && LeavesInv(s)
    requires Mine(s, dropped) && !OfResource(dropped) && Live(DropLeaf(s, dropped), leaf)
    ensures LeafInv(DropLeaf(s, dropped), leaf)
  {
    LiveExists(DropLeaf(s, dropped), leaf);
    LiveExists(s, leaf);
    DropFrame(s, dropped, leaf);
    hide DropLeaf, Live, Exists, OwnerOf, Armed, Complete, Sourced, OnTime, Bounds;
    assert LeafInv(s, leaf);
  }

  /** What one action on a pool does to request `j`: it is granted only by being woken, and a
      Pending poll leaves it registered and not granted. */
  lemma PoolEffect(p: Pools.Pool, a: Pools.Action, j: nat)
    requires Pools.Inv(p) && Pools.Enabled(p, a) && j < |p.reqs|
    ensures var o := Pools.Step(p, a); var r, r' := p.reqs[j], o.pool.reqs[j];
            && |p.reqs| <= |o.pool.reqs|
            && r'.owner == r.owner
            && (r.consumed ==> r'.consumed) && (r.dropped ==> r'.dropped) && (r.registered ==> r'.registered)
            && (r'.granted ==> r.granted || o.woken == Some(j))
            && (a == Pools.Poll(j) && o.ready ==> r'.consumed)
            && (a == Pools.Poll(j) && !o.ready ==> r'.registered && !r'.granted)
            && (a == Pools.DropRequest(j) ==> r'.dropped)
  {
    hide Pools.Inv, Pools.ReleaseUnit;
    match a
    case New(_, _) =>
    case Poll(i) =>
    case DropRequest(i) => ReleaseEffect(p.(reqs := p.reqs[i := Pools.Leave(p.reqs[i]).0]), j);
    case DropGuard(i) => ReleaseEffect(p.(reqs := p.reqs[i := p.reqs[i].(guard := false)]), j);
  }

  lemma ReleaseEffect(p: Pools.Pool, j: nat)
    requires j < |p.reqs|
    ensures var o := Pools.ReleaseUnit(p);
            && |o.pool.reqs| == |p.reqs|
            && (o.pool.reqs[j] == p.reqs[j] || (o.woken == Some(j) && o.pool.reqs[j] == p.reqs[j].(granted := true)))
  {
  }

  /** A leaf whose own tables a step does not touch, while wakes may be added, keeps its invariant. */
  lemma Untouched(s: Sys, s': Sys, leaf: Leaf)
    requires LeavesInv(s) && Live(s', leaf)
    requires s' == s.(ready := s'.ready, polled := s'.polled, pools := s'.pools, tanks := s'.tanks, shops := s'.shops)
    requires s.ready <= s'.ready && (leaf in s'.polled ==> leaf in s.polled)
    requires match leaf
             case Unit(k, _) => k < |s.pools| && k < |s'.pools| && s'.pools[k] == s.pools[k]
             case Flow(k, _) => k < |s.tanks| && k < |s'.tanks| && s'.tanks[k] == s.tanks[k]
             case Lease(k, _) => k < |s.shops| && k < |s'.shops| && s'.shops[k] == s.shops[k]
             case _ => true
    ensures LeafInv(s', leaf)
  {
    assert Live(s, leaf);
  }

  lemma PoolLeaf(s: Sys, k: nat, a: Pools.Action, leaf: Leaf)
    requires Bounds(s) && LeavesInv(s) && k < |s.pools| && Pools.Inv(s.pools[k]) && Pools.Enabled(s.pools[k], a)
    requires match a case New(owner, _) => s.current == Some(owner) case Poll(i) => Mine(s, Unit(k, i)) case _ => true
    requires Live(PoolStep(s, k, a), leaf)
    ensures LeafInv(PoolStep(s, k, a), leaf)
  {
    hide Pools.Inv, Pools.Step, Containers.Inv, Preemption.Inv;
    var p := s.pools[k];
    if leaf.Unit? && leaf.pool == k {
      if leaf.i < |p.reqs| {
        PoolEffect(p, a, leaf.i);
        assert Live(s, leaf);
      } else {
        PoolNew(p, a);
      }
    } else {
      hide LeafInv, LeavesInv;
      LiveExists(PoolStep(s, k, a), leaf);
      Untouched(s, PoolStep(s, k, a), leaf);
    }
  }

  lemma PoolNew(p: Pools.Pool, a: Pools.Action)
    requires Pools.Enabled(p, a)
    ensures !a.New? ==> |Pools.Step(p, a).pool.reqs| == |p.reqs|
    ensures a.New? ==>
              Pools.Step(p, a).pool.reqs ==
              p.reqs + [Pools.Request(a.owner, a.key, false, false, false, false, false, false)]
  {
  }

  /** Whoever a container step marks done is woken by it. */
  ghost predicate WakesCover(t: Containers.Tank, t': Containers.Tank) {
    && |t'.reqs| == |t.reqs| && WakesOwners(t, t')
    && forall j :: 0 <= j < |t.reqs| ==>
         || t'.reqs[j] == t.reqs[j]
         || (t'.reqs[j] == t.reqs[j].(done := true) && t.reqs[j].owner in t'.wakes[|t.wakes|..])
  }

  /** Only owners of requests are woken. */
  ghost predicate WakesOwners(t: Containers.Tank, t': Containers.Tank) {
    t.wakes <= t'.wakes &&
    forall w :: w in t'.wakes[|t.wakes|..] ==> exists j :: 0 <= j < |t.reqs| && t.reqs[j].owner == w
  }

  lemma WakesCompose(t: Containers.Tank, t1: Containers.Tank, t2: Containers.Tank)
    requires WakesCover(t, t1) && WakesCover(t1, t2)
    ensures WakesCover(t, t2)
  {
    assert t2.wakes[|t.wakes|..] == t1.wakes[|t.wakes|..] + t2.wakes[|t1.wakes|..];
  }

  lemma {:induction false} ServeWakes(t: Containers.Tank, kind: Containers.Kind)
    ensures WakesCover(t, Containers.Serve(t, kind).0)
    decreases |Containers.Queue(t, kind)|
  {
    var q := Containers.Queue(t, kind);
    if q == [] {
    } else if Containers.Dead(t, q[0]) {
      ServeWakes(Containers.PopHead(t, kind), kind);
    } else if Containers.Fits(t, kind, q[0].amount) {
      var t1 := Containers.CommitHead(t, kind);
      assert t1.wakes[|t.wakes|..] == if q[0].req < |t.reqs| then [t.reqs[q[0].req].owner] else [];
      assert WakesCover(t, t1);
      ServeWakes(t1, kind);
      WakesCompose(t, t1, Containers.Serve(t1, kind).0);
    }
  }

  lemma {:induction false} CascadeWakes(t: Containers.Tank)
    ensures WakesCover(t, Containers.Cascade(t))
    decreases |t.gets| + |t.puts|
  {
    var (t1, gotten) := Containers.Serve(t, Containers.Get);
    var (t2, put) := Containers.Serve(t1, Containers.Put);
    ServeWakes(t, Containers.Get);
    ServeWakes(t1, Containers.Put);
    WakesCompose(t, t1, t2);
    Containers.ServeShrinks(t, Containers.Get);
    Containers.ServeShrinks(t1, Containers.Put);
    if gotten || put {
      CascadeWakes(t2);
      WakesCompose(t, t2, Containers.Cascade(t2));
    }
  }

  lemma TankEffect(t: Containers.Tank, a: Containers.Action, j: nat)
    requires Containers.Inv(t) && Containers.Enabled(t, a) && j < |t.reqs|
    ensures var t' := Containers.Step(t, a);
            && t.wakes <= t'.wakes && |t.reqs| <= |t'.reqs|
            && var r, r' := t.reqs[j], t'.reqs[j];
            && r'.owner == r.owner
            && (r.finished ==> r'.finished) && (r.dropped ==> r'.dropped) && (r.registered ==> r'.registered)
            && (r'.done ==> r.done || r'.finished || r.owner in t'.wakes[|t.wakes|..])
            && (a == Containers.Poll(j) && !r'.finished ==> r'.registered && !r'.done)
            && (a == Containers.DropRequest(j) ==> r'.dropped)
  {
    if a.Poll? && !t.reqs[a.i].done && Containers.Immediate(t, a.i) {
      CascadeWakes(Containers.CommitFresh(t, a.i));
    }
  }

  lemma TankNew(t: Containers.Tank, a: Containers.Action)
    requires Containers.Enabled(t, a)
    ensures !a.New? ==> |Containers.Step(t, a).reqs| == |t.reqs|
    ensures a.New? ==>
              var t' := Containers.Step(t, a);
              && t'.wakes == t.wakes
              && t'.reqs ==
                 t.reqs + [Containers.Request(a.owner, a.kind, a.amount, false, false, false, false, false, 0)]
  {
    if a.Poll? { ContainerLaws.CascadeKeepsShape(Containers.CommitFresh(t, a.i)); }
  }

  lemma TankLeaf(s: Sys, k: nat, a: Containers.Action, leaf: Leaf)
    requires Bounds(s) && LeavesInv(s)
    requires k < |s.tanks| && Containers.Inv(s.tanks[k]) && Containers.Enabled(s.tanks[k], a)
    requires match a case New(owner, _, _) => s.current == Some(owner) case Poll(i) => Mine(s, Flow(k, i)) case _ => true
    requires Live(TankStep(s, k, a), leaf)
    ensures LeafInv(TankStep(s, k, a), leaf)
  {
    hide Pools.Inv, Containers.Step, Containers.Inv, Preemption.Inv;
    var t := s.tanks[k];
    if leaf.Flow? && leaf.tank == k {
      if leaf.i < |t.reqs| {
        TankEffect(t, a, leaf.i);
        assert Live(s, leaf);
      } else {
        TankNew(t, a);
      }
    } else {
      hide LeafInv, LeavesInv;
      LiveExists(TankStep(s, k, a), leaf);
      Untouched(s, TankStep(s, k, a), leaf);
    }
  }

  /** What one action on a preemptive pool does to request `j`. */
  lemma ShopEffect(x: Preemption.State, a: Preemption.Action, j: nat)
    requires Preemption.Inv(x) && Preemption.Enabled(x, a) && j < |x.reqs|
    ensures var x' := Preemption.Step(x, a);
            && |x.reqs| <= |x'.reqs|
            && var r, r' := x.reqs[j], x'.reqs[j];
            && r'.owner == r.owner
            && (r.consumed ==> r'.consumed) && (r.dropped ==> r'.dropped) && (r.registered ==> r'.registered)
            && (r'.granted ==> r.granted || Preemption.Woken(x, a) == Some(j))
            && (a == Preemption.Poll(j) && !r'.consumed ==> r'.registered && !r'.granted)
            && (a == Preemption.DropRequest(j) ==> r'.dropped)
  {
    hide Preemption.Inv, Preemption.ReleaseUnit;
    match a
    case DropRequest(i) => ShopRelease(x, a, j);
    case DropGuard(id) => ShopRelease(x, a, j);
    case _ =>
  }

  /** A drop leaves request `j` as it was, but for its own mark and a unit handed to it. */
  lemma ShopRelease(x: Preemption.State, a: Preemption.Action, j: nat)
    requires Preemption.Enabled(x, a) && j < |x.reqs| && (a.DropRequest? || a.DropGuard?)
    ensures var x' := Preemption.Step(x, a);
            && |x'.reqs| == |x.reqs|
            && var r, r' := x.reqs[j], x'.reqs[j];
            && r'.owner == r.owner && r'.consumed == r.consumed && r'.registered == r.registered
            && (r'.granted == r.granted || (r'.granted && Preemption.Woken(x, a) == Some(j)))
            && r'.dropped == (r.dropped || a == Preemption.DropRequest(j))
  {
    hide Preemption.ReleaseUnit, Preemption.HolderIndex, Preemption.Remove, Preemption.Canceled;
    match a
    case DropRequest(i) =>
      var r := x.reqs[i];
      Preemption.DropRequestIs(x, i);
      if !r.consumed && r.granted {
        ShopHandsOver(x.(reqs := x.reqs[i := r.(dropped := true, redeemed := true)]), j);
      }
    case DropGuard(id) =>
      var x' := x.(guards := x.guards[id := x.guards[id].(dropped := true)]);
      ShopHandsOver(x', j);
      if Preemption.HolderIndex(x.holders, id).Some? {
        ShopHandsOver(x'.(holders := Preemption.Remove(x'.holders, Preemption.HolderIndex(x.holders, id).value)), j);
      }
  }

  lemma ShopHandsOver(x: Preemption.State, j: nat)
    requires j < |x.reqs|
    ensures var x' := Preemption.ReleaseUnit(x); var next := Preemption.Released(x);
            && |x'.reqs| == |x.reqs|
            && (x'.reqs[j] == x.reqs[j] || (next == Some(j) && x'.reqs[j] == x.reqs[j].(granted := true)))
  {
  }

  lemma ShopNew(x: Preemption.State, a: Preemption.Action)
    requires Preemption.Enabled(x, a)
    ensures !a.New? ==> |Preemption.Step(x, a).reqs| == |x.reqs|
    ensures a.New? ==>
              Preemption.Step(x, a).reqs ==
              x.reqs + [Preemption.Request(a.owner, a.priority, false, false, false, false, false, false)]
  {
  }

  lemma ShopLeaf(s: Sys, k: nat, a: Preemption.Action, leaf: Leaf)
    requires Bounds(s) && LeavesInv(s)
    requires k < |s.shops| && Preemption.Inv(s.shops[k]) && Preemption.Enabled(s.shops[k], a)
    requires match a case New(owner, _) => s.current == Some(owner) case Poll(i) => Mine(s, Lease(k, i)) case _ => true
    requires Live(ShopStep(s, k, a), leaf)
    ensures LeafInv(ShopStep(s, k, a), leaf)
  {
    hide Pools.Inv, Containers.Inv, Preemption.Inv, Preemption.Step, Preemption.Woken;
    var x := s.shops[k];
    if leaf.Lease? && leaf.shop == k {
      if leaf.i < |x.reqs| {
        ShopEffect(x, a, leaf.i);
        assert Live(s, leaf);
      } else {
        ShopNew(x, a);
      }
    } else {
      hide LeafInv, LeavesInv;
      LiveExists(ShopStep(s, k, a), leaf);
      Untouched(s, ShopStep(s, k, a), leaf);
    }
  }

  // ----- Bounds, parts and processes, one step -----

  lemma PoolStepRest(s: Sys, k: nat, a: Pools.Action)
    requires Bounds(s) && PartsInv(s) && k < |s.pools| && Pools.Enabled(s.pools[k], a)
    requires match a case New(owner, _) => s.current == Some(owner) case _ => true
    ensures Bounds(PoolStep(s, k, a)) && PartsInv(PoolStep(s, k, a))
  {
    hide Pools.Inv, Pools.Step, Containers.Inv, Preemption.Inv;
    var p := s.pools[k];
    var o := Pools.Step(p, a);
    Pools.StepKeepsInv(p, a);
    PoolNew(p, a);
    forall j | 0 <= j < |o.pool.reqs| ensures o.pool.reqs[j].owner < Admitted(s) {
      if j < |p.reqs| { PoolEffect(p, a, j); }
    }
  }

  lemma TankStepRest(s: Sys, k: nat, a: Containers.Action)
    requires Bounds(s) && PartsInv(s) && k < |s.tanks| && Containers.Enabled(s.tanks[k], a)
    requires match a case New(owner, _, _) => s.current == Some(owner) case _ => true
    ensures Bounds(TankStep(s, k, a)) && PartsInv(TankStep(s, k, a))
  {
    hide Pools.Inv, Containers.Step, Containers.Inv, Preemption.Inv;
    ContainerLaws.StepKeepsInv(s.tanks[k], a);
    TankOwners(s.tanks[k], a, Admitted(s));
  }

  lemma TankOwners(t: Containers.Tank, a: Containers.Action, n: int)
    requires Containers.Inv(t) && Containers.Enabled(t, a) && (a.New? ==> a.owner < n)
    requires forall j :: 0 <= j < |t.reqs| ==> t.reqs[j].owner < n
    ensures var t' := Containers.Step(t, a);
            && |t.reqs| <= |t'.reqs| && t.wakes <= t'.wakes
            && (forall j :: 0 <= j < |t'.reqs| ==> t'.reqs[j].owner < n)
            && forall w :: w in t'.wakes[|t.wakes|..] ==> w < n
  {
    hide Containers.Step, Containers.Inv;
    var t' := Containers.Step(t, a);
    TankNew(t, a);
    forall j | 0 <= j < |t'.reqs| ensures t'.reqs[j].owner < n {
      if j < |t.reqs| { TankEffect(t, a, j); }
    }
    TankWakesOwners(t, a);
  }

  lemma TankWakesOwners(t: Containers.Tank, a: Containers.Action)
    requires Containers.Enabled(t, a)
    ensures var t' := Containers.Step(t, a);
            && t.wakes <= t'.wakes
            && forall w :: w in t'.wakes[|t.wakes|..] ==> exists j :: 0 <= j < |t.reqs| && t.reqs[j].owner == w
  {
    if a.Poll? && !t.reqs[a.i].done && Containers.Immediate(t, a.i) {
      var t0 := Containers.CommitFresh(t, a.i);
      CascadeWakes(t0);
      forall w | w in Containers.Cascade(t0).wakes[|t.wakes|..]
        ensures exists j :: 0 <= j < |t.reqs| && t.reqs[j].owner == w
      {
        var j :| 0 <= j < |t0.reqs| && t0.reqs[j].owner == w;
        assert t.reqs[j].owner == w;
      }
    }
  }

  lemma ShopStepRest(s: Sys, k: nat, a: Preemption.Action)
    requires Bounds(s) && PartsInv(s) && k < |s.shops| && Preemption.Enabled(s.shops[k], a)
    requires match a case New(owner, _) => s.current == Some(owner) case _ => true
    ensures Bounds(ShopStep(s, k, a)) && PartsInv(ShopStep(s, k, a))
  {
    hide Pools.Inv, Containers.Inv, Preemption.Inv, Preemption.Step, Preemption.Woken;
    var x := s.shops[k];
    var x' := Preemption.Step(x, a);
    Preemption.StepKeepsInv(x, a);
    ShopNew(x, a);
    forall j | 0 <= j < |x'.reqs| ensures x'.reqs[j].owner < Admitted(s) {
      if j < |x.reqs| { ShopEffect(x, a, j); }
    }
  }

  lemma TakeQueues(s: Sys)
    requires QueueBounds(s) && s.ready != []
    ensures QueueBounds(TakeNext(s))
  {
    assert s.ready[0] in s.ready && forall p :: p in s.ready[1..] ==> p in s.ready;
  }

  lemma PopQueues(s: Sys, k: nat)
    requires QueueBounds(s) && Earliest(s.queue, k)
    ensures QueueBounds(PopDue(s, k))
  {
    assert forall d :: d in PopDue(s, k).queue ==> d in s.queue;
  }

  lemma FinishQueues(s: Sys)
    requires QueueBounds(s) && s.current.Some?
    ensures QueueBounds(FinishCurrent(s))
  {
  }

  lemma SuspendQueues(s: Sys, on: Leaf)
    requires QueueBounds(s) && s.current.Some?
    ensures QueueBounds(SuspendOn(s, on))
  {
  }

  lemma ExecutorStepQueues(s: Sys, a: Action)
    requires QueueBounds(s) && Enabled(s, a) && OfExecutor(a)
    ensures QueueBounds(Step(s, a))
  {
    hide Live, Exists, Mine;
    match a
    case Pop(k) => PopQueues(s, k);
    case Take => TakeQueues(s);
    case Finish => FinishQueues(s);
    case Suspend(on) => SuspendQueues(s, on);
    case _ =>
  }

  lemma ExecutorFrame(s: Sys, a: Action)
    requires Enabled(s, a) && OfExecutor(a)
    ensures var s' := Step(s, a);
            && s'.timers == s.timers && s'.signals == s.signals && s'.children == s.children && s'.events == s.events
            && s'.pools == s.pools && s'.tanks == s.tanks && s'.shops == s.shops
            && |s.procs| <= |s'.procs| && Admitted(s) <= Admitted(s') && s'.polled <= s.polled
  {
  }

  lemma ExecutorStepRest(s: Sys, a: Action)
    requires Bounds(s) && PartsInv(s) && Enabled(s, a) && OfExecutor(a)
    ensures Bounds(Step(s, a)) && PartsInv(Step(s, a))
  {
    hide Pools.Inv, Containers.Inv, Preemption.Inv, QueueBounds, Step, Enabled;
    ExecutorFrame(s, a);
    ExecutorStepQueues(s, a);
  }

  /** Polling a timer queues its event in the future; polling a handle registers an existing process. */
  lemma RecordPollQueues(s: Sys, leaf: Leaf)
    requires QueueBounds(s) && Mine(s, leaf) && LeafInv(s, leaf) && !OfResource(leaf)
    requires leaf.Signal? ==> References(s)
    ensures QueueBounds(PollLeaf(s, leaf))
  {
  }

  lemma FireQueues(s: Sys, e: nat)
    requires QueueBounds(s) && References(s) && e < |s.events|
    ensures QueueBounds(FireEvent(s, e))
  {
  }

  /** The other steps leave the queues and the process table alone. */
  lemma RecordQuiet(s: Sys, a: Action)
    requires Enabled(s, a) && OfRecords(a) && !a.Poll? && !a.Fire?
    ensures var s' := Step(s, a);
            && s'.now == s.now && s'.queue == s.queue && s'.ready == s.ready && s'.pending == s.pending
            && s'.current == s.current && s'.procs == s.procs
  {
    hide Live;
  }

  lemma RecordStepQueues(s: Sys, a: Action)
    requires Bounds(s) && LeavesInv(s) && Enabled(s, a) && OfRecords(a)
    ensures QueueBounds(Step(s, a))
  {
    hide RequestBounds, PollLeaf, FireEvent, Live, LeafInv;
    if a.Poll? {
      LiveExists(s, a.leaf);
      assert LeafInv(s, a.leaf);
      RecordPollQueues(s, a.leaf);
    } else if a.Fire? {
      FireQueues(s, a.event);
    } else {
      RecordQuiet(s, a);
      hide Step, Enabled, LeavesInv, References;
    }
  }

  /** The tables only grow, and a record changes only when its own leaf is polled or dropped. */
  ghost predicate OnlyOwn(s: Sys, s': Sys, own: Option<Leaf>) {
    && |s.timers| <= |s'.timers| && |s.signals| <= |s'.signals| && |s.children| <= |s'.children|
    && |s.events| <= |s'.events| && |s.procs| <= |s'.procs|
    && (forall i: nat :: i < |s.timers| && own != Some(Timer(i)) ==> s'.timers[i] == s.timers[i])
    && (forall i: nat :: i < |s.signals| ==> s'.signals[i].event == s.signals[i].event)
    && (forall i: nat :: i < |s.signals| && own != Some(Signal(i)) ==> s'.signals[i] == s.signals[i])
    && (forall i: nat :: i < |s.children| ==> s'.children[i].child == s.children[i].child)
    && (forall i: nat :: i < |s.children| && own != Some(Child(i)) ==> s'.children[i] == s.children[i])
  }

  function OwnLeaf(a: Action): Option<Leaf> {
    match a
    case Poll(leaf) => Some(leaf)
    case Drop(leaf) => Some(leaf)
    case _ => None
  }

  lemma PollOnlyOwn(s: Sys, leaf: Leaf)
    requires Live(s, leaf) && !OfResource(leaf)
    ensures OnlyOwn(s, PollLeaf(s, leaf), Some(leaf))
  {
  }

  lemma DropOnlyOwn(s: Sys, leaf: Leaf)
    requires Live(s, leaf) && !OfResource(leaf)
    ensures OnlyOwn(s, DropLeaf(s, leaf), Some(leaf))
  {
  }

  lemma RecordOnlyOwn(s: Sys, a: Action)
    requires Enabled(s, a) && OfRecords(a)
    ensures OnlyOwn(s, Step(s, a), OwnLeaf(a))
  {
    hide PollLeaf, DropLeaf, Live;
    if a.Poll? {
      PollOnlyOwn(s, a.leaf);
    } else if a.Drop? {
      DropOnlyOwn(s, a.leaf);
    }
  }

  lemma RecordKeepsExisting(s: Sys, a: Action, leaf: Leaf)
    requires Enabled(s, a) && OfRecords(a) && Exists(s, leaf)
    ensures Exists(Step(s, a), leaf)
  {
    RecordOnlyOwn(s, a);
    TablesStay(s, a);
    hide Step, Enabled;
  }

  lemma PollReferences(s: Sys, leaf: Leaf)
    requires PendingInv(s) && References(s) && Live(s, leaf) && LeafInv(s, leaf) && !OfResource(leaf)
    ensures References(PollLeaf(s, leaf))
  {
  }

  lemma DropReferences(s: Sys, leaf: Leaf)
    requires References(s) && Live(s, leaf) && !OfResource(leaf)
    ensures References(DropLeaf(s, leaf))
  {
  }

  lemma FireReferences(s: Sys, e: nat)
    requires References(s) && e < |s.events|
    ensures References(FireEvent(s, e))
  {
  }

  lemma AddReferences(s: Sys, a: Action)
    requires PendingInv(s) && References(s) && Enabled(s, a) && OfRecords(a) && !a.Poll? && !a.Drop? && !a.Fire?
    ensures References(Step(s, a))
  {
    hide PendingInv;
  }

  lemma RecordStepReferences(s: Sys, a: Action)
    requires PendingInv(s) && References(s) && LeavesInv(s) && Enabled(s, a) && OfRecords(a)
    ensures References(Step(s, a))
  {
    hide PollLeaf, DropLeaf, FireEvent, Live, LeafInv, References, PendingInv, LeavesInv;
    if a.Poll? {
      LiveExists(s, a.leaf);
      LeafOf(s, a.leaf);
      PollReferences(s, a.leaf);
    } else if a.Drop? {
      DropReferences(s, a.leaf);
    } else if a.Fire? {
      FireReferences(s, a.event);
    } else {
      AddReferences(s, a);
    }
  }

  lemma RecordStepTables(s: Sys, a: Action)
    requires Bounds(s) && LeavesInv(s) && Enabled(s, a) && OfRecords(a)
    ensures TableBounds(Step(s, a))
  {
    hide RequestBounds, PendingInv, References, LeavesInv, Exists, Live, Step, Enabled;
    var s' := Step(s, a);
    RecordFrame(s, a);
    RecordStepReferences(s, a);
    forall leaf | leaf in s'.polled ensures Exists(s', leaf) {
      PolledExists(s, a);
      RecordKeepsExisting(s, a, leaf);
    }
  }

  lemma PolledExists(s: Sys, a: Action)
    requires Enabled(s, a) && OfRecords(a)
    ensures a.Poll? ==> Exists(s, a.leaf)
  {
  }

  lemma RecordStepRest(s: Sys, a: Action)
    requires Bounds(s) && PartsInv(s) && LeavesInv(s) && Enabled(s, a) && OfRecords(a)
    ensures Bounds(Step(s, a)) && PartsInv(Step(s, a))
  {
    hide Pools.Inv, Containers.Inv, Preemption.Inv, LeavesInv, QueueBounds, TableBounds, Step, Enabled;
    TablesStay(s, a);
    RecordFrame(s, a);
    RecordStepQueues(s, a);
    RecordStepTables(s, a);
  }

  // ----- Processes, one step -----

  /** What keeps process `p` where it is: waiting to be polled first, or on a live leaf. */
  ghost predicate Placed(s: Sys, p: nat)
    requires p < |s.procs|
  {
    if s.procs[p].started then Live(s, s.procs[p].on) && OwnerOf(s, s.procs[p].on) == p
    else p in s.ready || p in s.pending
  }

  /** A leaf does not change with the executor's queues, nor by processes being added. */
  lemma LeafStays(s: Sys, s': Sys, leaf: Leaf)
    requires Live(s, leaf) && |s.procs| <= |s'.procs|
    requires s'.timers == s.timers && s'.signals == s.signals && s'.children == s.children && s'.events == s.events
    requires s'.pools == s.pools && s'.tanks == s.tanks && s'.shops == s.shops
    ensures Live(s', leaf) && OwnerOf(s', leaf) == OwnerOf(s, leaf)
  {
  }

  /** A process the step leaves alone stays where it is. */
  lemma StaysPlaced(s: Sys, s': Sys, p: nat)
    requires p < |s.procs| <= |s'.procs| && Placed(s, p)
    requires s'.procs[p].started == s.procs[p].started && s'.procs[p].on == s.procs[p].on
    requires !s.procs[p].started ==> p in s'.ready || p in s'.pending
    requires s'.timers == s.timers && s'.signals == s.signals && s'.children == s.children && s'.events == s.events
    requires s'.pools == s.pools && s'.tanks == s.tanks && s'.shops == s.shops
    ensures Placed(s', p)
  {
    hide Live, OwnerOf;
    if s.procs[p].started { LeafStays(s, s', s.procs[p].on); }
  }

  lemma TakePlaces(s: Sys, p: nat)
    requires ProcsInv(s) && s.current.None? && s.ready != []
    requires var s' := TakeNext(s); p < |s'.procs| && !s'.procs[p].finished && s'.current != Some(p)
    ensures Placed(TakeNext(s), p)
  {
    hide Live, OwnerOf;
    assert Placed(s, p);
    assert p in s.ready && p != s.ready[0] ==> p in s.ready[1..];
    StaysPlaced(s, TakeNext(s), p);
  }

  lemma SuspendPlaces(s: Sys, on: Leaf, p: nat)
    requires QueueBounds(s) && ProcsInv(s) && Mine(s, on) && s.current.Some?
    requires var s' := SuspendOn(s, on); p < |s'.procs| && !s'.procs[p].finished && s'.current != Some(p)
    ensures Placed(SuspendOn(s, on), p)
  {
    hide Live, OwnerOf, Exists;
    if s.current == Some(p) {
      LeafStays(s, SuspendOn(s, on), on);
    } else {
      assert Placed(s, p);
      StaysPlaced(s, SuspendOn(s, on), p);
    }
  }

  lemma FinishPlaces(s: Sys, p: nat)
    requires QueueBounds(s) && ProcsInv(s) && s.current.Some?
    requires var s' := FinishCurrent(s); p < |s'.procs| && !s'.procs[p].finished && s'.current != Some(p)
    ensures Placed(FinishCurrent(s), p)
  {
    hide Live, OwnerOf, Exists;
    assert Placed(s, p);
    StaysPlaced(s, FinishCurrent(s), p);
  }

  lemma ExecutorPlaces(s: Sys, a: Action, p: nat)
    requires Bounds(s) && ProcsInv(s) && Enabled(s, a) && OfExecutor(a)
    requires var s' := Step(s, a); p < |s'.procs| && !s'.procs[p].finished && s'.current != Some(p)
    ensures Placed(Step(s, a), p)
  {
    hide Live, OwnerOf, Exists, Mine, TableBounds, RequestBounds, QueueBounds;
    if a.Take? {
      TakePlaces(s, p);
    } else if a.Suspend? {
      SuspendPlaces(s, a.on, p);
    } else if a.Finish? {
      FinishPlaces(s, p);
    } else if p < |s.procs| {
      assert Placed(s, p);
      StaysPlaced(s, Step(s, a), p);
    }
  }

  lemma RecordPlaces(s: Sys, a: Action, p: nat)
    requires ProcsInv(s) && Enabled(s, a) && OfRecords(a)
    requires var s' := Step(s, a); p < |s'.procs| && !s'.procs[p].finished && s'.current != Some(p)
    ensures Placed(Step(s, a), p)
  {
    assert Placed(s, p);
    if s.procs[p].started {
      RecordSpares(s, a, s.procs[p].on);
    }
  }

  lemma RecordSpares(s: Sys, a: Action, leaf: Leaf)
    requires Enabled(s, a) && OfRecords(a) && Live(s, leaf) && s.current != Some(OwnerOf(s, leaf))
    ensures Live(Step(s, a), leaf) && OwnerOf(Step(s, a), leaf) == OwnerOf(s, leaf)
  {
    if OfResource(leaf) {
      hide Live, OwnerOf, Exists, Step, Enabled;
      TablesStay(s, a);
      ResourceFrame(s, Step(s, a), leaf);
      LiveExists(s, leaf);
    } else {
      hide Live, OwnerOf, Exists, Step, Enabled;
      RecordSparesRecord(s, a, leaf);
    }
  }

  lemma RecordSparesRecord(s: Sys, a: Action, leaf: Leaf)
    requires !OfResource(leaf)
    requires Enabled(s, a) && OfRecords(a) && Live(s, leaf) && s.current != Some(OwnerOf(s, leaf))
    ensures Live(Step(s, a), leaf) && OwnerOf(Step(s, a), leaf) == OwnerOf(s, leaf)
  {
    RecordOnlyOwn(s, a);
    NotOwn(s, a, leaf);
    hide Step, Enabled;
  }

  lemma NotOwn(s: Sys, a: Action, leaf: Leaf)
    requires Enabled(s, a) && Live(s, leaf) && s.current != Some(OwnerOf(s, leaf))
    ensures OwnLeaf(a) != Some(leaf)
  {
  }

  lemma PoolPlaces(s: Sys, k: nat, a: Pools.Action, p: nat)
    requires Bounds(s) && ProcsInv(s) && k < |s.pools| && Pools.Enabled(s.pools[k], a)
    requires match a case Poll(i) => Mine(s, Unit(k, i)) case DropRequest(i) => Mine(s, Unit(k, i)) case _ => true
    requires p < |s.procs| && !s.procs[p].finished && s.current != Some(p)
    ensures Placed(PoolStep(s, k, a), p)
  {
    hide Pools.Step;
    assert Placed(s, p);
    var on := s.procs[p].on;
    if s.procs[p].started && on.Unit? && on.pool == k {
      PoolSpares(s.pools[k], a, on.i);
    }
  }

  lemma PoolSpares(p: Pools.Pool, a: Pools.Action, j: nat)
    requires Pools.Enabled(p, a) && j < |p.reqs| && a != Pools.Poll(j) && a != Pools.DropRequest(j)
    ensures var reqs' := Pools.Step(p, a).pool.reqs;
            && j < |reqs'| && reqs'[j].owner == p.reqs[j].owner
            && reqs'[j].consumed == p.reqs[j].consumed && reqs'[j].dropped == p.reqs[j].dropped
  {
    hide Pools.ReleaseUnit;
    match a
    case DropRequest(i) => ReleaseEffect(p.(reqs := p.reqs[i := Pools.Leave(p.reqs[i]).0]), j);
    case DropGuard(i) => ReleaseEffect(p.(reqs := p.reqs[i := p.reqs[i].(guard := false)]), j);
    case _ =>
  }

  lemma TankPlaces(s: Sys, k: nat, a: Containers.Action, p: nat)
    requires Bounds(s) && ProcsInv(s) && k < |s.tanks| && Containers.Enabled(s.tanks[k], a)
    requires match a case Poll(i) => Mine(s, Flow(k, i)) case DropRequest(i) => Mine(s, Flow(k, i)) case _ => true
    requires p < |s.procs| && !s.procs[p].finished && s.current != Some(p)
    ensures Placed(TankStep(s, k, a), p)
  {
    hide Containers.Step;
    assert Placed(s, p);
    var on := s.procs[p].on;
    if s.procs[p].started && on.Flow? && on.tank == k {
      TankSpares(s.tanks[k], a, on.i);
    }
  }

  lemma TankSpares(t: Containers.Tank, a: Containers.Action, j: nat)
    requires Containers.Enabled(t, a) && j < |t.reqs| && a != Containers.Poll(j) && a != Containers.DropRequest(j)
    ensures var reqs' := Containers.Step(t, a).reqs;
            && j < |reqs'| && reqs'[j].owner == t.reqs[j].owner
            && reqs'[j].finished == t.reqs[j].finished && reqs'[j].dropped == t.reqs[j].dropped
  {
    if a.Poll? && !t.reqs[a.i].done && Containers.Immediate(t, a.i) {
      CascadeWakes(Containers.CommitFresh(t, a.i));
    }
  }

  lemma ShopPlaces(s: Sys, k: nat, a: Preemption.Action, p: nat)
    requires Bounds(s) && ProcsInv(s) && k < |s.shops| && Preemption.Enabled(s.shops[k], a)
    requires match a case Poll(i) => Mine(s, Lease(k, i)) case DropRequest(i) => Mine(s, Lease(k, i)) case _ => true
    requires p < |s.procs| && !s.procs[p].finished && s.current != Some(p)
    ensures Placed(ShopStep(s, k, a), p)
  {
    hide Preemption.Step;
    assert Placed(s, p);
    var on := s.procs[p].on;
    if s.procs[p].started && on.Lease? && on.shop == k {
      ShopSpares(s.shops[k], a, on.i);
    }
  }

  lemma ShopSpares(x: Preemption.State, a: Preemption.Action, j: nat)
    requires Preemption.Enabled(x, a) && j < |x.reqs| && a != Preemption.Poll(j) && a != Preemption.DropRequest(j)
    ensures var reqs' := Preemption.Step(x, a).reqs;
            && j < |reqs'| && reqs'[j].owner == x.reqs[j].owner
            && reqs'[j].consumed == x.reqs[j].consumed && reqs'[j].dropped == x.reqs[j].dropped
  {
    if a.DropRequest? || a.DropGuard? { ShopRelease(x, a, j); }
  }

  // ----- The invariant -----

  lemma ExecutorLeaf(s: Sys, a: Action, leaf: Leaf)
    requires Bounds(s) && LeavesInv(s) && Enabled(s, a) && OfExecutor(a) && Live(Step(s, a), leaf)
    ensures LeafInv(Step(s, a), leaf)
  {
    hide Bounds, LeavesInv, LeafInv, Live, Exists, Earliest, TakeNext, SuspendOn, FinishCurrent, PopDue;
    if OfResource(leaf) {
      ExecutorResourceLeaf(s, a, leaf);
      return;
    }
    match a
    case Drain => DrainLeaf(s, leaf);
    case Take => TakeLeaf(s, leaf);
    case Suspend(on) => SuspendLeaf(s, on, leaf);
    case Finish => FinishLeaf(s, leaf);
    case Pop(k) => PopLeaf(s, k, leaf);
    case Advance(until) => AdvanceLeaf(s, until, leaf);
    case Spawn => SpawnLeaf(s, leaf);
  }

  lemma AddLeaf(s: Sys, a: Action, leaf: Leaf)
    requires Bounds(s) && LeavesInv(s) && Enabled(s, a) && OfRecords(a) && !a.Poll? && !a.Drop?
    requires !OfResource(leaf) && Live(Step(s, a), leaf)
    ensures LeafInv(Step(s, a), leaf)
  {
    hide Bounds, LeavesInv, LeafInv, Live, Exists, FireEvent;
    match a
    case Join(child) => JoinLeaf(s, child, leaf);
    case NewTimer(deadline) => NewTimerLeaf(s, deadline, leaf);
    case NewEvent => NewEventLeaf(s, leaf);
    case Listen(e) => ListenLeaf(s, e, leaf);
    case Fire(e) => FireLeaf(s, e, leaf);
  }

  lemma RecordLeaf(s: Sys, a: Action, leaf: Leaf)
    requires Bounds(s) && LeavesInv(s) && Enabled(s, a) && OfRecords(a) && Live(Step(s, a), leaf)
    ensures LeafInv(Step(s, a), leaf)
  {
    hide Bounds, LeavesInv, LeafInv, Live, Exists, PollLeaf, DropLeaf;
    if OfResource(leaf) {
      RecordResourceLeaf(s, a, leaf);
    } else if a.Poll? {
      PollRecordLeaf(s, a.leaf, leaf);
    } else if a.Drop? {
      DropRecordLeaf(s, a.leaf, leaf);
    } else {
      AddLeaf(s, a, leaf);
    }
  }

  lemma ExecutorKeepsInv(s: Sys, a: Action)
    requires Inv(s) && Enabled(s, a) && OfExecutor(a)
    ensures Inv(Step(s, a))
  {
    hide Bounds, PartsInv, LeafInv;
    ExecutorStepRest(s, a);
    forall leaf | Live(Step(s, a), leaf) ensures LeafInv(Step(s, a), leaf) {
      ExecutorLeaf(s, a, leaf);
    }
    var s' := Step(s, a);
    forall p | 0 <= p < |s'.procs| && !s'.procs[p].finished && s'.current != Some(p) ensures Placed(s', p) {
      ExecutorPlaces(s, a, p);
    }
  }

  lemma RecordKeepsInv(s: Sys, a: Action)
    requires Inv(s) && Enabled(s, a) && OfRecords(a)
    ensures Inv(Step(s, a))
  {
    hide Bounds, PartsInv, LeafInv;
    RecordStepRest(s, a);
    forall leaf | Live(Step(s, a), leaf) ensures LeafInv(Step(s, a), leaf) {
      RecordLeaf(s, a, leaf);
    }
    var s' := Step(s, a);
    forall p | 0 <= p < |s'.procs| && !s'.procs[p].finished && s'.current != Some(p) ensures Placed(s', p) {
      RecordPlaces(s, a, p);
    }
  }

  lemma PoolKeepsInv(s: Sys, k: nat, a: Pools.Action)
    requires Inv(s) && k < |s.pools| && Pools.Enabled(s.pools[k], a)
    requires match a
             case New(owner, _) => s.current == Some(owner)
             case Poll(i) => Mine(s, Unit(k, i))
             case DropRequest(i) => Mine(s, Unit(k, i))
             case DropGuard(_) => true
    ensures Inv(PoolStep(s, k, a))
  {
    hide Bounds, LeafInv, Pools.Inv, Containers.Inv, Preemption.Inv, Pools.Step;
    PoolStepRest(s, k, a);
    var s' := PoolStep(s, k, a);
    forall leaf | Live(s', leaf) ensures LeafInv(s', leaf) {
      PoolLeaf(s, k, a, leaf);
    }
    forall p | 0 <= p < |s'.procs| && !s'.procs[p].finished && s'.current != Some(p) ensures Placed(s', p) {
      PoolPlaces(s, k, a, p);
    }
  }

  lemma TankKeepsInv(s: Sys, k: nat, a: Containers.Action)
    requires Inv(s) && k < |s.tanks| && Containers.Enabled(s.tanks[k], a)
    requires match a
             case New(owner, _, _) => s.current == Some(owner)
             case Poll(i) => Mine(s, Flow(k, i))
             case DropRequest(i) => Mine(s, Flow(k, i))
    ensures Inv(TankStep(s, k, a))
  {
    hide Bounds, LeafInv, Pools.Inv, Containers.Inv, Preemption.Inv, Containers.Step;
    TankStepRest(s, k, a);
    var s' := TankStep(s, k, a);
    forall leaf | Live(s', leaf) ensures LeafInv(s', leaf) {
      TankLeaf(s, k, a, leaf);
    }
    forall p | 0 <= p < |s'.procs| && !s'.procs[p].finished && s'.current != Some(p) ensures Placed(s', p) {
      TankPlaces(s, k, a, p);
    }
  }

  lemma ShopKeepsInv(s: Sys, k: nat, a: Preemption.Action)
    requires Inv(s) && k < |s.shops| && Preemption.Enabled(s.shops[k], a)
    requires match a
             case New(owner, _) => s.current == Some(owner)
             case Poll(i) => Mine(s, Lease(k, i))
             case DropRequest(i) => Mine(s, Lease(k, i))
             case DropGuard(_) => true
    ensures Inv(ShopStep(s, k, a))
  {
    hide Bounds, LeafInv, Pools.Inv, Containers.Inv, Preemption.Inv, Preemption.Step, Preemption.Woken;
    ShopStepRest(s, k, a);
    var s' := ShopStep(s, k, a);
    forall leaf | Live(s', leaf) ensures LeafInv(s', leaf) {
      ShopLeaf(s, k, a, leaf);
    }
    forall p | 0 <= p < |s'.procs| && !s'.procs[p].finished && s'.current != Some(p) ensures Placed(s', p) {
      ShopPlaces(s, k, a, p);
    }
  }

  lemma StepKeepsInv(s: Sys, a: Action)
    requires Inv(s) && Enabled(s, a)
    ensures Inv(Step(s, a))
  {
    hide Inv, PoolStep, TankStep, ShopStep;
    if OfExecutor(a) {
      ExecutorKeepsInv(s, a);
    } else if OfRecords(a) {
      RecordKeepsInv(s, a);
    } else {
      match a
      case Request(k, key) => PoolKeepsInv(s, k, Pools.New(s.current.value, key));
      case DropGuard(k, i) => PoolKeepsInv(s, k, Pools.DropGuard(i));
      case Bid(k, priority) => ShopKeepsInv(s, k, Preemption.New(s.current.value, priority));
      case DropLease(k, id) => ShopKeepsInv(s, k, Preemption.DropGuard(id));
      case Poll(Lease(k, i)) => ShopKeepsInv(s, k, Preemption.Poll(i));
      case Drop(Lease(k, i)) => ShopKeepsInv(s, k, Preemption.DropRequest(i));
      case Ask(k, kind, amount) => TankKeepsInv(s, k, Containers.New(s.current.value, kind, amount));
      case Poll(Unit(k, i)) => PoolKeepsInv(s, k, Pools.Poll(i));
      case Poll(Flow(k, i)) => TankKeepsInv(s, k, Containers.Poll(i));
      case Drop(Unit(k, i)) => PoolKeepsInv(s, k, Pools.DropRequest(i));
      case Drop(Flow(k, i)) => TankKeepsInv(s, k, Containers.DropRequest(i));
    }
  }

  // ----- Whole runs -----

  ghost predicate Start(s: Sys) {
    && s.queue == [] && s.ready == [] && s.pending == [] && s.current == None && s.polled == {} && s.procs == []
    && s.timers == [] && s.signals == [] && s.children == [] && s.events == []
    && (forall k :: 0 <= k < |s.pools| ==> s.pools[k] == Pools.Init(s.pools[k].q.capacity))
    && (forall k :: 0 <= k < |s.tanks| ==>
          && s.tanks[k] == Containers.Init(s.tanks[k].capacity, s.tanks[k].initial)
          && 0.0 <= s.tanks[k].initial <= s.tanks[k].capacity)
    && (forall k :: 0 <= k < |s.shops| ==> s.shops[k] == Preemption.Init(s.shops[k].q.capacity))
  }

  ghost predicate ValidRun(s: Sys, acts: seq<Action>)
    decreases |acts|
  {
    acts == [] || (Enabled(s, acts[0]) && ValidRun(Step(s, acts[0]), acts[1..]))
  }

  ghost function Run(s: Sys, acts: seq<Action>): Sys
    requires ValidRun(s, acts)
    decreases |acts|
  {
    if acts == [] then s else Run(Step(s, acts[0]), acts[1..])
  }

  lemma StartInv(s: Sys)
    requires Start(s)
    ensures Inv(s)
  {
    forall k | 0 <= k < |s.pools| ensures Pools.Inv(s.pools[k]) {
      Pools.InitInv(s.pools[k].q.capacity);
    }
    forall k | 0 <= k < |s.tanks| ensures Containers.Inv(s.tanks[k]) {
      ContainerLaws.InitInv(s.tanks[k].capacity, s.tanks[k].initial);
    }
    forall k | 0 <= k < |s.shops| ensures Preemption.Inv(s.shops[k]) {
      PreemptionLaws.InitInv(s.shops[k].q.capacity);
    }
    hide Pools.Inv, Containers.Inv, Preemption.Inv;
    assert forall leaf :: !Live(s, leaf);
  }

  lemma {:induction false} RunKeepsInv(s: Sys, acts: seq<Action>)
    requires Inv(s) && ValidRun(s, acts)
    ensures Inv(Run(s, acts))
    decreases |acts|
  {
    hide Inv;
    if acts != [] {
      StepKeepsInv(s, acts[0]);
      RunKeepsInv(Step(s, acts[0]), acts[1..]);
    }
  }

  /** Wake completeness: in every reachable state, if a leaf of a process that is not running is
      complete then the process is in the ready queue; a scheduled timer still has its event or has
      just been woken, at its deadline; and every other leaf is registered where its completion
      will wake the process. */
  lemma NoWakeIsLost(s0: Sys, acts: seq<Action>, leaf: Leaf)
    requires Start(s0) && ValidRun(s0, acts)
    requires var s := Run(s0, acts); Live(s, leaf) && s.current != Some(OwnerOf(s, leaf))
    ensures var s := Run(s0, acts); var p := OwnerOf(s, leaf);
            && Armed(s, leaf)
            && (Complete(s, leaf) ==> p in s.ready)
            && (!Complete(s, leaf) ==> Sourced(s, leaf))
            && (leaf.Timer? ==>
                  var d := s.timers[leaf.i].deadline;
                  s.now <= d && (Due(d, p) in s.queue || (s.now == d && p in s.ready)))
  {
    StartInv(s0);
    RunKeepsInv(s0, acts);
    assert LeafInv(Run(s0, acts), leaf);
  }

  ghost predicate WaitersDistinct(s: Sys) {
    forall e :: 0 <= e < |s.events| ==> Events.Distinct(s.events[e].waiters)
  }

  lemma StepKeepsWaiters(s: Sys, a: Action)
    requires Enabled(s, a) && WaitersDistinct(s)
    ensures WaitersDistinct(Step(s, a))
  {
    hide Pools.Step, Containers.Step, Preemption.Step;
    var s' := Step(s, a);
    forall e | 0 <= e < |s'.events| ensures Events.Distinct(s'.events[e].waiters) {
      if e < |s.events| { EventAfter(s, a, e); }
    }
  }

  /** An action leaves an event alone, fires it, or polls it. */
  lemma EventAfter(s: Sys, a: Action, e: nat)
    requires Enabled(s, a) && e < |s.events| && Events.Distinct(s.events[e].waiters)
    ensures e < |Step(s, a).events| && Events.Distinct(Step(s, a).events[e].waiters)
  {
    hide Pools.Step, Containers.Step, Preemption.Step, Events.Distinct, Events.PollLatch, Events.FireLatch;
    Events.StaysDistinct(s.events[e], 0);
    if a.Poll? && a.leaf.Signal? {
      Events.StaysDistinct(s.events[e], s.signals[a.leaf.i].owner);
    }
  }

  lemma {:induction false} RunKeepsWaiters(s: Sys, acts: seq<Action>)
    requires WaitersDistinct(s) && ValidRun(s, acts)
    ensures WaitersDistinct(Run(s, acts))
    decreases |acts|
  {
    hide WaitersDistinct, Step, Enabled;
    if acts != [] {
      StepKeepsWaiters(s, acts[0]);
      RunKeepsWaiters(Step(s, acts[0]), acts[1..]);
    }
  }

  /** However often it was polled and by whom, firing an event wakes each process at most once. */
  lemma FiringWakesOnce(s0: Sys, acts: seq<Action>, e: nat)
    requires Start(s0) && ValidRun(s0, acts) && e < |Run(s0, acts).events|
    ensures Events.Distinct(Events.FireLatch(Run(s0, acts).events[e]).1)
  {
    RunKeepsWaiters(s0, acts);
  }

  /** The state in which `run` returns. */
  predicate AtRest(s: Sys) {
    s.current == None && s.ready == [] && s.pending == [] && s.queue == []
  }

  lemma RestingLeaf(s: Sys, leaf: Leaf)
    requires LeavesInv(s) && AtRest(s) && Live(s, leaf)
    ensures !leaf.Timer? && Armed(s, leaf) && !Complete(s, leaf)
  {
    assert LeafInv(s, leaf);
  }

  lemma RestingPool(s: Sys, k: nat, i: nat)
    requires LeavesInv(s) && PartsInv(s) && AtRest(s) && Live(s, Unit(k, i))
    ensures var p := s.pools[k];
            Pools.Grants(p) == {} && p.q.inUse == p.q.capacity == |Pools.Guards(p)|
  {
    var p := s.pools[k];
    hide LeafInv;
    RestingLeaf(s, Unit(k, i));
    forall j | 0 <= j < |p.reqs| && !p.reqs[j].consumed && !p.reqs[j].dropped ensures !p.reqs[j].granted {
      RestingLeaf(s, Unit(k, j));
    }
    assert Pools.Grants(p) == {};
    assert Pools.Inv(p);
  }

  /** The same for a preemptive pool: its units are held, or were granted to requests that had
      already taken another by preempting while parked. */
  lemma RestingShop(s: Sys, k: nat, i: nat)
    requires LeavesInv(s) && PartsInv(s) && AtRest(s) && Live(s, Lease(k, i))
    ensures var x := s.shops[k];
            && x.q.inUse == x.q.capacity == |x.holders| + |Preemption.Outstanding(x)|
            && forall j :: j in Preemption.Outstanding(x) ==> x.reqs[j].consumed
  {
    var x := s.shops[k];
    hide LeafInv;
    RestingLeaf(s, Lease(k, i));
    forall j | 0 <= j < |x.reqs| && !x.reqs[j].consumed && !x.reqs[j].dropped ensures !x.reqs[j].granted {
      RestingLeaf(s, Lease(k, j));
    }
    assert Preemption.Inv(x);
  }

  lemma RestingState(s: Sys)
    requires Inv(s) && AtRest(s)
    ensures forall leaf :: Live(s, leaf) ==> !leaf.Timer? && Armed(s, leaf) && !Complete(s, leaf)
    ensures forall k: nat, i: nat :: Live(s, Unit(k, i)) ==>
              s.pools[k].q.inUse == s.pools[k].q.capacity == |Pools.Guards(s.pools[k])|
    ensures forall k: nat, i: nat :: Live(s, Lease(k, i)) ==>
              s.shops[k].q.inUse == s.shops[k].q.capacity == |s.shops[k].holders| + |Preemption.Outstanding(s.shops[k])|
  {
    hide LeavesInv, PartsInv, ProcsInv, Bounds, Armed, Complete, Pools.Guards, Preemption.Outstanding;
    forall leaf | Live(s, leaf) ensures !leaf.Timer? && Armed(s, leaf) && !Complete(s, leaf) {
      RestingLeaf(s, leaf);
    }
    forall k: nat, i: nat | Live(s, Unit(k, i))
      ensures s.pools[k].q.inUse == s.pools[k].q.capacity == |Pools.Guards(s.pools[k])|
    {
      RestingPool(s, k, i);
    }
    forall k: nat, i: nat | Live(s, Lease(k, i))
      ensures s.shops[k].q.inUse == s.shops[k].q.capacity == |s.shops[k].holders| + |Preemption.Outstanding(s.shops[k])|
    {
      RestingShop(s, k, i);
    }
  }

  /** When `run` returns, no timer is pending, every unfinished process is suspended on a leaf that
      has really not happened (a unit not granted, an amount not committed, an event not fired, a
      child not finished), and any pool with somebody parked has all its units under live guards. */
  lemma RunEndsAtRest(s0: Sys, acts: seq<Action>)
    requires Start(s0) && ValidRun(s0, acts) && AtRest(Run(s0, acts))
    ensures var s := Run(s0, acts);
            && (forall leaf :: Live(s, leaf) ==> !leaf.Timer? && Armed(s, leaf) && !Complete(s, leaf))
            && (forall p :: 0 <= p < |s.procs| && !s.procs[p].finished ==>
                  Live(s, s.procs[p].on) && OwnerOf(s, s.procs[p].on) == p)
            && (forall k: nat, i: nat :: Live(s, Unit(k, i)) ==>
                  s.pools[k].q.inUse == s.pools[k].q.capacity == |Pools.Guards(s.pools[k])|)
            && (forall k: nat, i: nat :: Live(s, Lease(k, i)) ==>
                  s.shops[k].q.inUse == s.shops[k].q.capacity ==
                  |s.shops[k].holders| + |Preemption.Outstanding(s.shops[k])|)
  {
    hide Start, ValidRun, Run, LeavesInv, PartsInv, Bounds, Armed, Complete, Pools.Guards, Preemption.Outstanding;
    StartInv(s0);
    RunKeepsInv(s0, acts);
    RestingState(Run(s0, acts));
  }

  /** The poll that follows a wake is Ready. */
  lemma CompleteIsReady(s: Sys, leaf: Leaf)
    requires Inv(s) && Enabled(s, Poll(leaf)) && Complete(s, leaf)
    ensures !Live(Step(s, Poll(leaf)), leaf)
  {
    hide PartsInv, ProcsInv, Bounds;
    assert LeafInv(s, leaf);
  }

  /** A timer is Ready exactly at its deadline, however often it is polled before. */
  lemma TimerIsExact(s: Sys, i: nat)
    requires Inv(s) && Enabled(s, Poll(Timer(i)))
    ensures var s' := Step(s, Poll(Timer(i)));
            s'.timers[i].over <==> s.timers[i].scheduled && s.now == s.timers[i].deadline
  {
    hide PartsInv, ProcsInv, Bounds;
    assert LeafInv(s, Timer(i));
  }
}
