/** Customers that queue for the servers of a Resource, and the records they leave behind. */
module Queueing {
  import opened Options
  import opened TimeAverages
  import Pools

  /** `since`: when the customer's request was Ready and its service began. */
  datatype Customer = Customer(arrival: real, service: real, since: Option<real>)

  /** Customer `i` makes request `i` of the pool. */
  datatype Hall = Hall(now: real, pool: Pools.Pool, customers: seq<Customer>, recs: seq<Rec>)

  datatype Action =
    | Tick(now: real)
    | Arrive(service: real)
    | Poll(i: nat)
    | Leave(i: nat)

  function Init(servers: nat): Hall {
    Hall(0.0, Pools.Init(servers), [], [])
  }

  /** The clock never goes back, a service time is not negative, and a customer leaves when its
      timeout resolves, which is at its deadline. */
  predicate Enabled(s: Hall, a: Action) {
    match a
    case Tick(t) => s.now <= t
    case Arrive(service) => service >= 0.0
    case Poll(i) => i < |s.customers| && Pools.Enabled(s.pool, Pools.Poll(i))
    case Leave(i) =>
      && i < |s.customers| && Pools.Enabled(s.pool, Pools.DropGuard(i))
      && s.customers[i].since.Some? && s.now == s.customers[i].since.value + s.customers[i].service
  }

  function Step(s: Hall, a: Action): Hall
    requires Enabled(s, a)
  {
    match a
    case Tick(t) => s.(now := t)
    case Arrive(service) =>
      s.(pool := Pools.Step(s.pool, Pools.New(|s.customers|, 0)).pool,
         customers := s.customers + [Customer(s.now, service, None)])
    case Poll(i) =>
      var o := Pools.Step(s.pool, Pools.Poll(i));
      s.(pool := o.pool,
         customers := if o.ready then s.customers[i := s.customers[i].(since := Some(s.now))] else s.customers)
    case Leave(i) =>
      var c := s.customers[i];
      s.(pool := Pools.Step(s.pool, Pools.DropGuard(i)).pool,
         recs := s.recs + [Rec(c.since.value - c.arrival, c.service, s.now)])
  }

  // ----- The invariant -----

  ghost predicate CustomerInv(s: Hall, i: nat)
    requires i < |s.customers| == |s.pool.reqs|
  {
    var c, r := s.customers[i], s.pool.reqs[i];
    && 0.0 <= c.arrival <= s.now && c.service >= 0.0
    && (c.since.Some? ==> c.arrival <= c.since.value <= s.now)
    && (r.guard ==> c.since.Some?)
  }

  ghost predicate CustomersInv(s: Hall) {
    && |s.customers| == |s.pool.reqs|
    && forall i :: 0 <= i < |s.customers| ==> CustomerInv(s, i)
  }

  ghost predicate RecordsInv(s: Hall) {
    s.now >= 0.0 && Plausible(s.recs) && forall r :: r in s.recs ==> r.departure <= s.now
  }

  /** The customers in service by a time, of those who have not left yet. */
  ghost function InService(s: Hall, at: real): set<nat> {
    set i | 0 <= i < |s.customers| && i < |s.pool.reqs| && s.pool.reqs[i].guard &&
            s.customers[i].since.Some? && s.customers[i].since.value <= at
  }

  /** At an instant in the past, those who have left since and those still in service. */
  ghost predicate Fits(s: Hall, at: real) {
    Active(Spans(s.recs, Held), at) + |InService(s, at)| <= s.pool.q.capacity
  }

  ghost predicate Inv(s: Hall) {
    && Pools.Inv(s.pool) && CustomersInv(s) && RecordsInv(s)
    && forall at: real :: at < s.now ==> Fits(s, at)
  }

  // ----- Spans -----

  lemma {:induction false} NobodyLater(recs: seq<Rec>, at: real)
    requires forall r :: r in recs ==> r.departure <= at
    ensures Active(Spans(recs, Held), at) == 0
  {
    if recs != [] {
      var n := |recs| - 1;
      assert recs[n] in recs;
      assert Spans(recs, Held)[..n] == Spans(recs[..n], Held);
      NobodyLater(recs[..n], at);
    }
  }

  lemma OneMore(recs: seq<Rec>, r: Rec, at: real)
    ensures Active(Spans(recs + [r], Held), at) ==
            Active(Spans(recs, Held), at) + if r.departure - r.service <= at < r.departure then 1 else 0
  {
    var n := |recs|;
    assert Spans(recs + [r], Held)[..n] == Spans(recs, Held);
  }

  lemma Smaller<T>(a: set<T>, b: set<T>)
    requires a <= b
    ensures |a| <= |b|
  {
    assert b == a + (b - a);
  }

  /** From now on only those in service count, and each has one of the pool's units. */
  lemma FitsNow(s: Hall, at: real)
    requires Pools.Inv(s.pool) && RecordsInv(s) && s.now <= at
    ensures Fits(s, at)
  {
    NobodyLater(s.recs, at);
    Smaller(InService(s, at), Pools.Guards(s.pool));
  }

  // ----- One step -----

  /** What an action on the pool does to customer `j`'s guard. */
  lemma GuardFrame(p: Pools.Pool, a: Pools.Action, j: nat)
    requires Pools.Enabled(p, a) && j < |p.reqs|
    ensures var o := Pools.Step(p, a);
            && o.pool.q.capacity == p.q.capacity && j < |o.pool.reqs|
            && o.pool.reqs[j].guard ==
               ((p.reqs[j].guard || (a == Pools.Poll(j) && o.ready)) && a != Pools.DropGuard(j))
  {
  }

  lemma PoolShape(p: Pools.Pool, a: Pools.Action)
    requires Pools.Enabled(p, a)
    ensures var p' := Pools.Step(p, a).pool;
            p'.q.capacity == p.q.capacity && |p'.reqs| == |p.reqs| + if a.New? then 1 else 0
    ensures a.New? ==> !Pools.Step(p, a).pool.reqs[|p.reqs|].guard
  {
  }

  lemma TickKeepsInv(s: Hall, t: real)
    requires Inv(s) && s.now <= t
    ensures Inv(Step(s, Tick(t)))
  {
    hide Pools.Inv, Fits, Active;
    var s' := Step(s, Tick(t));
    assert forall j :: 0 <= j < |s.customers| && CustomerInv(s, j) ==> CustomerInv(s', j);
    forall at: real | at < t ensures Fits(s', at) {
      if at >= s.now { FitsNow(s, at); }
      assert Fits(s, at);
      SameHall(s, s', at);
    }
  }

  lemma SameHall(s: Hall, s': Hall, at: real)
    requires Fits(s, at) && s'.recs == s.recs && s'.pool.q.capacity == s.pool.q.capacity
    requires InService(s', at) == InService(s, at)
    ensures Fits(s', at)
  {
  }

  lemma ArriveKeepsInv(s: Hall, service: real)
    requires Inv(s) && service >= 0.0
    ensures Inv(Step(s, Arrive(service)))
  {
    hide Pools.Inv, Pools.Step, Fits;
    var s', a := Step(s, Arrive(service)), Pools.New(|s.customers|, 0);
    Pools.StepKeepsInv(s.pool, a);
    PoolShape(s.pool, a);
    forall j | 0 <= j < |s.customers| ensures s'.pool.reqs[j].guard == s.pool.reqs[j].guard {
      GuardFrame(s.pool, a, j);
    }
    assert CustomerInv(s', |s.customers|);
    assert forall j :: 0 <= j < |s.customers| && CustomerInv(s, j) ==> CustomerInv(s', j);
    forall at: real | at < s.now ensures Fits(s', at) {
      assert InService(s', at) == InService(s, at);
      SameHall(s, s', at);
    }
  }

  lemma PollKeepsInv(s: Hall, i: nat)
    requires Inv(s) && Enabled(s, Poll(i))
    ensures Inv(Step(s, Poll(i)))
  {
    hide Pools.Inv, Pools.Step, Fits;
    var s', a := Step(s, Poll(i)), Pools.Poll(i);
    Pools.StepKeepsInv(s.pool, a);
    PoolShape(s.pool, a);
    forall j | 0 <= j < |s.customers|
      ensures s'.pool.reqs[j].guard == (s.pool.reqs[j].guard || (j == i && Pools.Step(s.pool, a).ready))
    {
      GuardFrame(s.pool, a, j);
    }
    FreshGuard(s.pool, i);
    assert forall j :: 0 <= j < |s.customers| && CustomerInv(s, j) ==> CustomerInv(s', j);
    forall at: real | at < s.now ensures Fits(s', at) {
      assert InService(s', at) == InService(s, at);
      SameHall(s, s', at);
    }
  }

  /** A request that can still be polled has no guard. */
  lemma FreshGuard(p: Pools.Pool, i: nat)
    requires Pools.Inv(p) && Pools.Enabled(p, Pools.Poll(i))
    ensures !p.reqs[i].guard
  {
  }

  lemma LeaveFits(s: Hall, i: nat, at: real)
    requires Inv(s) && Enabled(s, Leave(i)) && at < s.now
    ensures Fits(Step(s, Leave(i)), at)
  {
    hide Pools.Inv, Pools.Step, Active;
    var s', a, c := Step(s, Leave(i)), Pools.DropGuard(i), s.customers[i];
    PoolShape(s.pool, a);
    forall j | 0 <= j < |s.customers| ensures s'.pool.reqs[j].guard == (s.pool.reqs[j].guard && j != i) {
      GuardFrame(s.pool, a, j);
    }
    OneMore(s.recs, Rec(c.since.value - c.arrival, c.service, s.now), at);
    assert Fits(s, at);
    assert InService(s', at) == InService(s, at) - {i};
    assert i in InService(s, at) <==> c.since.value <= at;
  }

  lemma LeaveKeepsInv(s: Hall, i: nat)
    requires Inv(s) && Enabled(s, Leave(i))
    ensures Inv(Step(s, Leave(i)))
  {
    hide Pools.Inv, Pools.Step, Fits;
    var s', a := Step(s, Leave(i)), Pools.DropGuard(i);
    Pools.StepKeepsInv(s.pool, a);
    PoolShape(s.pool, a);
    forall j | 0 <= j < |s.customers| ensures s'.pool.reqs[j].guard ==> s.pool.reqs[j].guard {
      GuardFrame(s.pool, a, j);
    }
    assert forall j :: 0 <= j < |s.customers| && CustomerInv(s, j) ==> CustomerInv(s', j);
    forall at: real | at < s.now ensures Fits(s', at) {
      LeaveFits(s, i, at);
    }
    assert CustomerInv(s, i);
  }

  lemma StepKeepsInv(s: Hall, a: Action)
    requires Inv(s) && Enabled(s, a)
    ensures Inv(Step(s, a)) && Step(s, a).pool.q.capacity == s.pool.q.capacity
  {
    hide Inv, Pools.Step;
    match a
    case Tick(t) => TickKeepsInv(s, t);
    case Arrive(service) =>
      ArriveKeepsInv(s, service);
      PoolShape(s.pool, Pools.New(|s.customers|, 0));
    case Poll(i) =>
      PollKeepsInv(s, i);
      PoolShape(s.pool, Pools.Poll(i));
    case Leave(i) =>
      LeaveKeepsInv(s, i);
      PoolShape(s.pool, Pools.DropGuard(i));
  }

  // ----- Whole runs -----

  predicate ValidRun(s: Hall, acts: seq<Action>)
    decreases |acts|
  {
    acts == [] || (Enabled(s, acts[0]) && ValidRun(Step(s, acts[0]), acts[1..]))
  }

  function Run(s: Hall, acts: seq<Action>): Hall
    requires ValidRun(s, acts)
    decreases |acts|
  {
    if acts == [] then s else Run(Step(s, acts[0]), acts[1..])
  }

  lemma {:induction false} RunKeepsInv(s: Hall, acts: seq<Action>)
    requires Inv(s) && ValidRun(s, acts)
    ensures Inv(Run(s, acts)) && Run(s, acts).pool.q.capacity == s.pool.q.capacity
    decreases |acts|
  {
    hide Inv, Step, Enabled;
    if acts != [] {
      StepKeepsInv(s, acts[0]);
      RunKeepsInv(Step(s, acts[0]), acts[1..]);
    }
  }

  lemma InitInv(servers: nat)
    ensures Inv(Init(servers))
  {
    Pools.InitInv(servers);
    hide Pools.Inv;
    forall at: real | at < 0.0 ensures Fits(Init(servers), at) {
      assert InService(Init(servers), at) == {};
    }
  }

  /** Whatever the customers do, no more of them are served at any instant than there are servers. */
  lemma NeverMoreThanServers(servers: nat, acts: seq<Action>, at: real)
    requires ValidRun(Init(servers), acts)
    ensures var s := Run(Init(servers), acts);
            && Plausible(s.recs)
            && Active(Spans(s.recs, Held), at) + |InService(s, at)| <= servers
  {
    InitInv(servers);
    RunKeepsInv(Init(servers), acts);
    var s := Run(Init(servers), acts);
    hide Pools.Inv;
    if at < s.now {
      assert Fits(s, at);
    } else {
      FitsNow(s, at);
    }
  }

  /** The utilisation reported for any run of the queue is at most one. */
  lemma UtilizationIsAtMostOne(servers: nat, acts: seq<Action>)
    requires servers > 0 && ValidRun(Init(servers), acts)
    ensures Utilization(Run(Init(servers), acts).recs, servers) <= 1.0
  {
    hide Utilization, Active, Spans, Plausible, Run, ValidRun;
    var recs := Run(Init(servers), acts).recs;
    forall at: real ensures Active(Spans(recs, Held), at) <= servers {
      NeverMoreThanServers(servers, acts, at);
    }
    NeverMoreThanServers(servers, acts, 0.0);
    UtilizationIsBounded(recs, servers);
  }
}
