/** What the records of a queue run say about the run: whose stays they are, and that the mean queue
    length computed from them is the measured one. */
module QueueingLaws {
  import opened Options
  import opened TimeAverages
  import opened Queueing
  import Pools

  // ----- What happened, read off the actions -----

  /** The time by the last tick. */
  function Clock(acts: seq<Action>): real {
    if acts == [] then 0.0
    else if acts[|acts| - 1].Tick? then acts[|acts| - 1].now
    else Clock(acts[..|acts| - 1])
  }

  datatype Arrival = Arrival(at: real, service: real)

  /** The arrivals, in order: the `i`-th is customer `i`'s. */
  function Arrivals(acts: seq<Action>): seq<Arrival> {
    if acts == [] then []
    else
      var front, a := acts[..|acts| - 1], acts[|acts| - 1];
      Arrivals(front) + if a.Arrive? then [Arrival(Clock(front), a.service)] else []
  }

  datatype Departure = Departure(at: real, customer: nat)

  function Departures(acts: seq<Action>): seq<Departure> {
    if acts == [] then []
    else
      var front, a := acts[..|acts| - 1], acts[|acts| - 1];
      Departures(front) + if a.Leave? then [Departure(Clock(front), a.i)] else []
  }

  /** When customer `i`'s request was Ready. */
  function Served(servers: nat, acts: seq<Action>, i: nat): Option<real>
    requires ValidRun(Init(servers), acts)
  {
    if acts == [] then None
    else
      var front, a := acts[..|acts| - 1], acts[|acts| - 1];
      RunSnoc(Init(servers), acts);
      if a == Poll(i) && Pools.Step(Run(Init(servers), front).pool, Pools.Poll(i)).ready then Some(Clock(front))
      else Served(servers, front, i)
  }

  /** One customer more at every arrival, one less at every departure. */
  function Changes(acts: seq<Action>): seq<Change> {
    if acts == [] then []
    else
      var front, a := acts[..|acts| - 1], acts[|acts| - 1];
      Changes(front) + if a.Arrive? then [Change(Clock(front), 1.0)]
                       else if a.Leave? then [Change(Clock(front), -1.0)]
                       else []
  }

  lemma {:induction false} RunSnoc(s: Hall, acts: seq<Action>)
    requires acts != [] && ValidRun(s, acts)
    ensures var front, a := acts[..|acts| - 1], acts[|acts| - 1];
            ValidRun(s, front) && Enabled(Run(s, front), a) && Run(s, acts) == Step(Run(s, front), a)
    decreases |acts|
  {
    hide Enabled, Step;
    var n := |acts| - 1;
    if n > 0 {
      RunSnoc(Step(s, acts[0]), acts[1..]);
      assert acts[..n][1..] == acts[1..][..n - 1];
    }
  }

  // ----- Records are stays -----

  /** Everyone who left has had, and lost, a guard. */
  ghost predicate Gone(s: Hall, i: nat) {
    i < |s.pool.reqs| && s.pool.reqs[i].consumed && !s.pool.reqs[i].guard
  }

  /** Record `r` is that of the departure `d` of a customer who arrived at `a` and was served from `begun`. */
  predicate StayOf(r: Rec, d: Departure, a: Arrival, begun: Option<real>) {
    && begun == Some(r.departure - r.service)
    && r.departure == d.at && r.service == a.service && r.departure - r.service - r.wait == a.at
  }

  ghost predicate CustomersAre(servers: nat, acts: seq<Action>, s: Hall)
    requires ValidRun(Init(servers), acts)
  {
    && s.now == Clock(acts) && |s.customers| == |Arrivals(acts)|
    && forall i :: 0 <= i < |s.customers| ==>
         s.customers[i] == Customer(Arrivals(acts)[i].at, Arrivals(acts)[i].service, Served(servers, acts, i))
  }

  /** Record `k` is that of the customer of departure `k`, who will not be served again. */
  ghost predicate RecordOf(servers: nat, acts: seq<Action>, s: Hall, k: nat)
    requires ValidRun(Init(servers), acts) && k < |Departures(acts)| == |s.recs|
  {
    var d := Departures(acts)[k];
    && d.customer < |Arrivals(acts)| && Gone(s, d.customer)
    && StayOf(s.recs[k], d, Arrivals(acts)[d.customer], Served(servers, acts, d.customer))
  }

  ghost predicate RecordsAre(servers: nat, acts: seq<Action>, s: Hall)
    requires ValidRun(Init(servers), acts)
  {
    var ds := Departures(acts);
    && |s.recs| == |ds|
    && (forall k :: 0 <= k < |ds| ==> RecordOf(servers, acts, s, k))
    && (forall k, l :: 0 <= k < l < |ds| ==> ds[k].customer != ds[l].customer)
  }

  lemma GoneStays(s: Hall, a: Action, i: nat)
    requires Inv(s) && Enabled(s, a) && Gone(s, i)
    ensures Gone(Step(s, a), i) && a != Poll(i) && a != Leave(i)
  {
    hide Pools.Inv, CustomersInv, RecordsInv;
    match a
    case Tick(_) =>
    case Arrive(service) => ConsumedStays(s.pool, Pools.New(|s.customers|, 0), i);
    case Poll(j) => ConsumedStays(s.pool, Pools.Poll(j), i);
    case Leave(j) => ConsumedStays(s.pool, Pools.DropGuard(j), i);
  }

  lemma ConsumedStays(p: Pools.Pool, a: Pools.Action, i: nat)
    requires Pools.Enabled(p, a) && i < |p.reqs| && p.reqs[i].consumed
    ensures var p' := Pools.Step(p, a).pool; i < |p'.reqs| && p'.reqs[i].consumed
    ensures !p.reqs[i].guard ==> !Pools.Step(p, a).pool.reqs[i].guard
  {
  }

  lemma LeaverIsGone(s: Hall, i: nat)
    requires Inv(s) && Enabled(s, Leave(i))
    ensures Gone(Step(s, Leave(i)), i)
  {
    hide CustomersInv, RecordsInv;
    GuardFrame(s.pool, Pools.DropGuard(i), i);
    ConsumedStays(s.pool, Pools.DropGuard(i), i);
  }

  lemma CustomersStep(servers: nat, acts: seq<Action>)
    requires acts != [] && ValidRun(Init(servers), acts)
    requires var front := acts[..|acts| - 1];
             ValidRun(Init(servers), front) && CustomersAre(servers, front, Run(Init(servers), front))
    ensures CustomersAre(servers, acts, Run(Init(servers), acts))
  {
    RunSnoc(Init(servers), acts);
    hide Run, ValidRun, Pools.Step;
    var front, a := acts[..|acts| - 1], acts[|acts| - 1];
    if a.Arrive? { NotServedYet(servers, front, |Arrivals(front)|); }
  }

  lemma {:induction false} EachArrives(servers: nat, acts: seq<Action>)
    requires ValidRun(Init(servers), acts)
    ensures |Run(Init(servers), acts).customers| == |Arrivals(acts)|
  {
    if acts != [] {
      RunSnoc(Init(servers), acts);
      EachArrives(servers, acts[..|acts| - 1]);
      hide Run, ValidRun, Pools.Step;
    }
  }

  /** Nobody is served before arriving. */
  lemma {:induction false} NotServedYet(servers: nat, acts: seq<Action>, i: nat)
    requires ValidRun(Init(servers), acts) && i >= |Arrivals(acts)|
    ensures Served(servers, acts, i) == None
  {
    if acts != [] {
      var front, a := acts[..|acts| - 1], acts[|acts| - 1];
      RunSnoc(Init(servers), acts);
      EachArrives(servers, front);
      NotServedYet(servers, front, i);
    }
  }

  lemma RecordStays(servers: nat, acts: seq<Action>, k: nat)
    requires acts != [] && ValidRun(Init(servers), acts)
    requires var front := acts[..|acts| - 1];
             ValidRun(Init(servers), front) && Inv(Run(Init(servers), front)) &&
             k < |Departures(front)| == |Run(Init(servers), front).recs| &&
             RecordOf(servers, front, Run(Init(servers), front), k)
    ensures |Departures(acts)| == |Run(Init(servers), acts).recs| && k < |Departures(acts)|
    ensures Departures(acts)[k] == Departures(acts[..|acts| - 1])[k] && acts[|acts| - 1] != Leave(Departures(acts)[k].customer)
    ensures RecordOf(servers, acts, Run(Init(servers), acts), k)
  {
    RunSnoc(Init(servers), acts);
    hide Run, ValidRun, Pools.Step, Inv, Gone, StayOf;
    var front, a := acts[..|acts| - 1], acts[|acts| - 1];
    GoneStays(Run(Init(servers), front), a, Departures(front)[k].customer);
  }

  lemma LeaveRecords(servers: nat, acts: seq<Action>, i: nat)
    requires acts != [] && ValidRun(Init(servers), acts) && acts[|acts| - 1] == Leave(i)
    requires var front := acts[..|acts| - 1];
             ValidRun(Init(servers), front) && Inv(Run(Init(servers), front)) &&
             CustomersAre(servers, front, Run(Init(servers), front)) &&
             |Departures(front)| == |Run(Init(servers), front).recs|
    ensures var n := |acts| - 1; var k := |Departures(acts[..n])|;
            && |Departures(acts)| == k + 1 == |Run(Init(servers), acts).recs|
            && Departures(acts)[k].customer == i && RecordOf(servers, acts, Run(Init(servers), acts), k)
  {
    RunSnoc(Init(servers), acts);
    hide Run, ValidRun, Pools.Step, Inv, Gone;
    LeaverIsGone(Run(Init(servers), acts[..|acts| - 1]), i);
  }

  lemma RecordsStep(servers: nat, acts: seq<Action>)
    requires acts != [] && ValidRun(Init(servers), acts)
    requires var front := acts[..|acts| - 1];
             ValidRun(Init(servers), front) && Inv(Run(Init(servers), front)) &&
             CustomersAre(servers, front, Run(Init(servers), front)) && RecordsAre(servers, front, Run(Init(servers), front))
    ensures RecordsAre(servers, acts, Run(Init(servers), acts))
  {
    hide Run, ValidRun, Step, Enabled, Inv, RecordOf, CustomersAre, Served, Init;
    var front, a := acts[..|acts| - 1], acts[|acts| - 1];
    forall k | 0 <= k < |Departures(front)|
      ensures k < |Departures(acts)| == |Run(Init(servers), acts).recs|
      ensures Departures(acts)[k] == Departures(front)[k] && a != Leave(Departures(acts)[k].customer)
      ensures RecordOf(servers, acts, Run(Init(servers), acts), k)
    {
      RecordStays(servers, acts, k);
    }
    if a.Leave? {
      LeaveRecords(servers, acts, a.i);
    } else {
      NobodyLeaves(servers, acts);
    }
  }

  lemma NobodyLeaves(servers: nat, acts: seq<Action>)
    requires acts != [] && ValidRun(Init(servers), acts) && !acts[|acts| - 1].Leave?
    ensures Departures(acts) == Departures(acts[..|acts| - 1])
    ensures ValidRun(Init(servers), acts[..|acts| - 1])
    ensures Run(Init(servers), acts).recs == Run(Init(servers), acts[..|acts| - 1]).recs
  {
    RunSnoc(Init(servers), acts);
    hide Pools.Step;
  }

  /** Over any run, each record is that of a customer who has left, and nobody has two: it shows the
      departure, the service drawn at the arrival, and the wait from the arrival to the time the
      request was Ready. */
  lemma {:induction false} RecordsAreStays(servers: nat, acts: seq<Action>)
    requires ValidRun(Init(servers), acts)
    ensures var s := Run(Init(servers), acts); CustomersAre(servers, acts, s) && RecordsAre(servers, acts, s)
    decreases |acts|
  {
    if acts != [] {
      RunSnoc(Init(servers), acts);
      var front := acts[..|acts| - 1];
      RecordsAreStays(servers, front);
      InitInv(servers);
      RunKeepsInv(Init(servers), front);
      hide Inv, CustomersAre, RecordsAre, Step, Enabled;
      CustomersStep(servers, acts);
      RecordsStep(servers, acts);
    }
  }

  // ----- The number in the hall -----

  function Ups(arrivals: seq<Arrival>): seq<Change> {
    seq(|arrivals|, i requires 0 <= i < |arrivals| => Change(arrivals[i].at, 1.0))
  }

  function Downs(departures: seq<Departure>): seq<Change> {
    seq(|departures|, k requires 0 <= k < |departures| => Change(departures[k].at, -1.0))
  }

  lemma UpsGrow(arrivals: seq<Arrival>, a: Arrival)
    ensures multiset(Ups(arrivals + [a])) == multiset(Ups(arrivals)) + multiset{Change(a.at, 1.0)}
  {
    assert Ups(arrivals + [a]) == Ups(arrivals) + [Change(a.at, 1.0)];
  }

  lemma DownsGrow(departures: seq<Departure>, d: Departure)
    ensures multiset(Downs(departures + [d])) == multiset(Downs(departures)) + multiset{Change(d.at, -1.0)}
  {
    assert Downs(departures + [d]) == Downs(departures) + [Change(d.at, -1.0)];
  }

  lemma {:induction false} ChangesAre(acts: seq<Action>)
    ensures multiset(Changes(acts)) == multiset(Ups(Arrivals(acts))) + multiset(Downs(Departures(acts)))
  {
    if acts == [] {
    } else {
      hide Ups, Downs, Clock;
      var front, a := acts[..|acts| - 1], acts[|acts| - 1];
      ChangesAre(front);
      if a.Arrive? {
        UpsGrow(Arrivals(front), Arrival(Clock(front), a.service));
        assert Departures(acts) == Departures(front);
      } else if a.Leave? {
        DownsGrow(Departures(front), Departure(Clock(front), a.i));
        assert Arrivals(acts) == Arrivals(front);
      } else {
        assert Changes(acts) == Changes(front);
        assert Arrivals(acts) == Arrivals(front) && Departures(acts) == Departures(front);
      }
    }
  }

  /** The clock of a run never goes back, so neither do the changes. */
  lemma {:induction false} ChangesAreOrdered(servers: nat, acts: seq<Action>)
    requires ValidRun(Init(servers), acts)
    ensures Run(Init(servers), acts).now == Clock(acts)
    ensures Ordered(Changes(acts)) && forall c :: c in Changes(acts) ==> c.time <= Clock(acts)
  {
    if acts != [] {
      RunSnoc(Init(servers), acts);
      ChangesAreOrdered(servers, acts[..|acts| - 1]);
      hide Run, ValidRun, Pools.Step, Pools.Enabled;
      var old', c := Changes(acts[..|acts| - 1]), Changes(acts);
      forall i, j | 0 <= i < j < |c| ensures c[i].time <= c[j].time {
        assert c[i] == old'[i];
      }
    }
  }

  function Froms(spans: seq<Span>): seq<Change> {
    seq(|spans|, k requires 0 <= k < |spans| => Change(spans[k].from, 1.0))
  }

  function Tos(spans: seq<Span>): seq<Change> {
    seq(|spans|, k requires 0 <= k < |spans| => Change(spans[k].to, -1.0))
  }

  lemma SpansGrow(spans: seq<Span>)
    requires spans != []
    ensures var n := |spans| - 1;
            && multiset(Froms(spans)) == multiset(Froms(spans[..n])) + multiset{Change(spans[n].from, 1.0)}
            && multiset(Tos(spans)) == multiset(Tos(spans[..n])) + multiset{Change(spans[n].to, -1.0)}
  {
    var n := |spans| - 1;
    assert Froms(spans) == Froms(spans[..n]) + [Change(spans[n].from, 1.0)];
    assert Tos(spans) == Tos(spans[..n]) + [Change(spans[n].to, -1.0)];
  }

  lemma JumpsGrow(spans: seq<Span>, end: real)
    requires spans != [] && spans[|spans| - 1].from <= spans[|spans| - 1].to <= end
    ensures var n := |spans| - 1;
            multiset(AllJumps(spans, end)) ==
            multiset(AllJumps(spans[..n], end)) + multiset{Change(spans[n].from, 1.0)} + multiset{Change(spans[n].to, -1.0)}
  {
  }

  lemma {:induction false} JumpsAre(spans: seq<Span>, end: real)
    requires forall s :: s in spans ==> s.from <= s.to <= end
    ensures multiset(AllJumps(spans, end)) == multiset(Froms(spans)) + multiset(Tos(spans))
  {
    if spans == [] {
    } else {
      hide Froms, Tos, AllJumps;
      var front, s := spans[..|spans| - 1], spans[|spans| - 1];
      assert s in spans && forall x :: x in front ==> x in spans;
      JumpsAre(front, end);
      SpansGrow(spans);
      JumpsGrow(spans, end);
    }
  }

  // ----- Reordering -----

  ghost predicate Indexes(p: seq<nat>, n: nat) {
    && (forall k :: 0 <= k < |p| ==> p[k] < n)
    && (forall k, l :: 0 <= k < l < |p| ==> p[k] != p[l])
  }

  function Range(n: nat): (r: set<nat>)
    ensures |r| == n && forall i: nat :: i in r <==> i < n
  {
    if n == 0 then {} else Range(n - 1) + {n - 1}
  }

  function Elements(p: seq<nat>): (r: set<nat>)
    ensures forall x :: x in r <==> x in p
  {
    if p == [] then {}
    else
      assert p == p[..|p| - 1] + [p[|p| - 1]];
      Elements(p[..|p| - 1]) + {p[|p| - 1]}
  }

  lemma LastIsNew(p: seq<nat>, n: nat)
    requires p != [] && Indexes(p, n)
    ensures Indexes(p[..|p| - 1], n) && p[|p| - 1] !in p[..|p| - 1]
  {
  }

  lemma {:induction false} AsMany(p: seq<nat>, n: nat)
    requires Indexes(p, n)
    ensures |Elements(p)| == |p|
  {
    if p != [] {
      LastIsNew(p, n);
      AsMany(p[..|p| - 1], n);
    }
  }

  lemma Onto(p: seq<nat>, n: nat)
    requires |p| == n > 0 && Indexes(p, n)
    ensures n - 1 in p
  {
    if n - 1 !in p {
      forall x | x in p ensures x < n - 1 {
        var k :| 0 <= k < |p| && p[k] == x;
      }
      AsMany(p, n);
      hide Elements, Indexes, Range;
      Smaller(Elements(p), Range(n - 1));
    }
  }

  function Pick<T>(xs: seq<T>, p: seq<nat>): seq<T>
    requires forall k :: 0 <= k < |p| ==> p[k] < |xs|
  {
    seq(|p|, k requires 0 <= k < |p| => xs[p[k]])
  }

  /** The indexes without the greatest, which is at `j`. */
  lemma WithoutGreatest(p: seq<nat>, j: nat, n: nat)
    requires j < |p| && p[j] == n && Indexes(p, n + 1)
    ensures Indexes(p[..j] + p[j + 1..], n)
  {
    var rest := p[..j] + p[j + 1..];
    assert forall k :: 0 <= k < |rest| ==> rest[k] == p[if k < j then k else k + 1];
  }

  lemma CutOut<T>(all: seq<T>, j: nat)
    requires j < |all|
    ensures multiset(all) == multiset(all[..j] + all[j + 1..]) + multiset{all[j]}
  {
    assert all == all[..j] + [all[j]] + all[j + 1..];
  }

  lemma PickWithout<T>(xs: seq<T>, p: seq<nat>, j: nat)
    requires xs != [] && j < |p| && p[j] == |xs| - 1 && Indexes(p, |xs|)
    ensures Indexes(p[..j] + p[j + 1..], |xs| - 1)
    ensures multiset(Pick(xs, p)) == multiset(Pick(xs[..|xs| - 1], p[..j] + p[j + 1..])) + multiset{xs[|xs| - 1]}
  {
    WithoutGreatest(p, j, |xs| - 1);
    CutOut(Pick(xs, p), j);
    PickCut(xs, p, j);
  }

  lemma PickCut<T>(xs: seq<T>, p: seq<nat>, j: nat)
    requires xs != [] && j < |p| && p[j] == |xs| - 1 && Indexes(p, |xs|)
    requires Indexes(p[..j] + p[j + 1..], |xs| - 1)
    ensures Pick(xs[..|xs| - 1], p[..j] + p[j + 1..]) == Pick(xs, p)[..j] + Pick(xs, p)[j + 1..]
  {
  }

  lemma {:induction false} PickAll<T>(xs: seq<T>, p: seq<nat>)
    requires |p| == |xs| && Indexes(p, |xs|)
    ensures multiset(Pick(xs, p)) == multiset(xs)
    decreases |xs|
  {
    if xs != [] {
      var n := |xs| - 1;
      Onto(p, |xs|);
      var j :| 0 <= j < |p| && p[j] == n;
      PickWithout(xs, p, j);
      PickAll(xs[..n], p[..j] + p[j + 1..]);
      hide Pick;
      assert xs == xs[..n] + [xs[n]];
    }
  }

  // ----- The measured mean -----

  lemma StaysEndInTime(recs: seq<Rec>)
    requires Plausible(recs)
    ensures forall x :: x in Spans(recs, Stay) ==> x.from <= x.to <= TEnd(recs)
  {
    LastDeparture(recs);
    hide TEnd;
    forall x | x in Spans(recs, Stay) ensures x.from <= x.to <= TEnd(recs) {
      var k :| 0 <= k < |recs| && x == Stay(recs[k]);
      assert recs[k] in recs;
    }
  }

  function Leavers(departures: seq<Departure>): seq<nat> {
    seq(|departures|, k requires 0 <= k < |departures| => departures[k].customer)
  }

  /** The stays begin with the arrivals of those who left, and end with their departures. */
  lemma StaysMatch(servers: nat, acts: seq<Action>)
    requires ValidRun(Init(servers), acts)
    ensures var ups, p := Ups(Arrivals(acts)), Leavers(Departures(acts));
            var spans := Spans(Run(Init(servers), acts).recs, Stay);
            && Indexes(p, |ups|) && Froms(spans) == Pick(ups, p) && Tos(spans) == Downs(Departures(acts))
  {
    RecordsAreStays(servers, acts);
    hide Run, ValidRun, CustomersAre, Served;
    var s, ds, ups := Run(Init(servers), acts), Departures(acts), Ups(Arrivals(acts));
    var spans, p := Spans(s.recs, Stay), Leavers(ds);
    forall k | 0 <= k < |ds| ensures p[k] < |ups| && Froms(spans)[k] == ups[p[k]] && Tos(spans)[k] == Downs(ds)[k] {
      assert RecordOf(servers, acts, s, k);
    }
    assert Froms(spans) == Pick(ups, p);
    assert Tos(spans) == Downs(ds);
  }

  /** Once everybody who came has left, the stays on record make exactly the changes there were. */
  lemma StaysMakeChanges(servers: nat, acts: seq<Action>)
    requires ValidRun(Init(servers), acts) && |Departures(acts)| == |Arrivals(acts)|
    ensures var recs := Run(Init(servers), acts).recs;
            && Plausible(recs) && Ordered(Changes(acts))
            && multiset(Changes(acts)) == multiset(AllJumps(Spans(recs, Stay), TEnd(recs)))
  {
    hide Run, ValidRun, TEnd, AllJumps, Ordered, Changes, Plausible, Spans, Indexes, Pick, Froms, Tos;
    var recs := Run(Init(servers), acts).recs;
    NeverMoreThanServers(servers, acts, 0.0);
    ChangesAreOrdered(servers, acts);
    ChangesAre(acts);
    StaysMatch(servers, acts);
    StaysEndInTime(recs);
    JumpsAre(Spans(recs, Stay), TEnd(recs));
    PickAll(Ups(Arrivals(acts)), Leavers(Departures(acts)));
  }

  /** The mean queue length reported for a run in which everybody who came has left is the time
      average, over the run, of the number of customers in the hall. */
  lemma MeanQueueIsMeasured(servers: nat, acts: seq<Action>)
    requires ValidRun(Init(servers), acts) && |Departures(acts)| == |Arrivals(acts)|
    requires TEnd(Run(Init(servers), acts).recs) > 0.0
    ensures var recs := Run(Init(servers), acts).recs;
            && Record(Begin(0.0), Changes(acts)).start == 0.0
            && MeanQueue(recs) == Mean(Record(Begin(0.0), Changes(acts)), TEnd(recs))
  {
    hide Run, ValidRun, TEnd, AllJumps, Ordered, Changes, Record, MeanQueue, Mean, Departures, Arrivals;
    StaysMakeChanges(servers, acts);
    MeanQueueIsMeanNumber(Run(Init(servers), acts).recs, Changes(acts));
  }
}
