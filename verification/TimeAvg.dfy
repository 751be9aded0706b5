/** Time averages of a level that changes by jumps, Little's identity on a sample path, and the
    bound on the utilisation of a pool of servers. */
module TimeAverages {
  datatype Change = Change(time: real, delta: real)

  /** The fields of the recorder. */
  datatype Recorder = Recorder(start: real, last: real, area: real, level: real)

  /** A product, named so that proofs can treat it as a unit. */
  function Times(x: real, y: real): real { x * y }

  lemma TimesIsLinear(x: real, a: real, b: real)
    ensures Times(x, a + b) == Times(x, a) + Times(x, b)
    ensures Times(x, 0.0) == 0.0
  {
  }

  lemma TimesIsPositive(x: real, y: real)
    requires x > 0.0 && y > 0.0
    ensures Times(x, y) > 0.0
  {
  }

  lemma TimesIsMonotone(x: real, y: real, length: real)
    requires x <= y && length >= 0.0
    ensures Times(x, length) <= Times(y, length)
  {
  }

  function Begin(start: real): Recorder {
    Recorder(start, start, 0.0, 0.0)
  }

  function Add(r: Recorder, c: Change): Recorder {
    if c.time <= r.start then r.(level := r.level + c.delta)
    else r.(area := r.area + Times(r.level, c.time - r.last), last := c.time, level := r.level + c.delta)
  }

  /** The area under the level from `start` to `end`. */
  function AreaUpTo(r: Recorder, end: real): real {
    r.area + Times(r.level, end - r.last)
  }

  function Mean(r: Recorder, end: real): real
    requires end != r.start
  {
    AreaUpTo(r, end) / (end - r.start)
  }

  function Record(r: Recorder, changes: seq<Change>): Recorder {
    if changes == [] then r else Add(Record(r, changes[..|changes| - 1]), changes[|changes| - 1])
  }

  ghost predicate Ordered(changes: seq<Change>) {
    forall i, j :: 0 <= i < j < |changes| ==> changes[i].time <= changes[j].time
  }

  function Max(x: real, y: real): real {
    if x >= y then x else y
  }

  function Min(x: real, y: real): real {
    if x <= y then x else y
  }

  // ----- Weighted sums of changes -----

  function Sum(changes: seq<Change>, weight: Change -> real): real {
    if changes == [] then 0.0 else Sum(changes[..|changes| - 1], weight) + weight(changes[|changes| - 1])
  }

  lemma {:induction false} SumConcat(a: seq<Change>, b: seq<Change>, weight: Change -> real)
    ensures Sum(a + b, weight) == Sum(a, weight) + Sum(b, weight)
  {
    if b == [] {
      assert a + b == a;
    } else {
      SumConcat(a, b[..|b| - 1], weight);
      assert (a + b)[..|a + b| - 1] == a + b[..|b| - 1];
    }
  }

  /** A sum does not depend on the order of its terms. */
  lemma {:induction false} SumPermuted(a: seq<Change>, b: seq<Change>, weight: Change -> real)
    requires multiset(a) == multiset(b)
    ensures Sum(a, weight) == Sum(b, weight)
    decreases |a|
  {
    if a == [] {
      assert |multiset(b)| == 0;
    } else {
      var n := |a| - 1;
      assert a[n] in multiset(a);
      var k :| 0 <= k < |b| && b[k] == a[n];
      assert a == a[..n] + [a[n]];
      TakeOut(b, k, weight);
      SumPermuted(a[..n], b[..k] + b[k + 1..], weight);
    }
  }

  lemma TakeOut(b: seq<Change>, k: nat, weight: Change -> real)
    requires k < |b|
    ensures var rest := b[..k] + b[k + 1..];
            multiset(rest) == multiset(b) - multiset{b[k]} && Sum(b, weight) == Sum(rest, weight) + weight(b[k])
  {
    var one := [b[k]];
    assert b == b[..k] + (one + b[k + 1..]);
    SumConcat(b[..k], b[k + 1..], weight);
    SumConcat(b[..k], one + b[k + 1..], weight);
    SumConcat(one, b[k + 1..], weight);
    assert one[..0] == [] && Sum(one, weight) == weight(b[k]);
  }

  // ----- The area is the sum of the changes' effects -----

  function Effect(start: real, end: real): Change -> real {
    (c: Change) => Times(c.delta, end - Max(c.time, start))
  }

  function Level(at: real): Change -> real {
    (c: Change) => if c.time <= at then c.delta else 0.0
  }

  /** What was recorded so far, for changes in time order. */
  ghost predicate Recorded(r: Recorder, start: real, changes: seq<Change>) {
    && r.start == start <= r.last
    && (forall c :: c in changes ==> c.time <= r.last)
    && (forall c :: c in changes && c.time > start ==> r.last > start)
    && (r.last > start ==> exists c :: c in changes && c.time == r.last)
    && r.level == Sum(changes, Level(r.last))
  }

  lemma AddMovesArea(r: Recorder, c: Change, end: real)
    ensures c.time > r.start ==> AreaUpTo(Add(r, c), end) == AreaUpTo(r, end) + Times(c.delta, end - c.time)
    ensures c.time <= r.start == r.last ==> AreaUpTo(Add(r, c), end) == AreaUpTo(r, end) + Times(c.delta, end - r.start)
  {
    var t, l := c.time, r.last;
    assert r.level * (end - l) == r.level * (t - l) + r.level * (end - t);
    assert (r.level + c.delta) * (end - t) == r.level * (end - t) + c.delta * (end - t);
    assert (r.level + c.delta) * (end - l) == r.level * (end - l) + c.delta * (end - l);
  }

  lemma AreaStep(r: Recorder, c: Change, end: real)
    requires c.time <= r.start ==> r.last == r.start
    ensures AreaUpTo(Add(r, c), end) == AreaUpTo(r, end) + Effect(r.start, end)(c)
  {
    hide Times, AreaUpTo, Add;
    AddMovesArea(r, c, end);
  }

  lemma RecordedStep(r: Recorder, start: real, front: seq<Change>, c: Change)
    requires Recorded(r, start, front) && forall x :: x in front ==> x.time <= c.time
    ensures Recorded(Add(r, c), start, front + [c]) && (c.time <= start ==> r.last == start)
  {
    var changes, r' := front + [c], Add(r, c);
    assert changes[..|front|] == front && changes[|front|] == c;
    assert forall x :: x in changes <==> x in front || x == c;
    SameSum(front, Level(r.last), Level(r'.last));
    assert Sum(changes, Level(r'.last)) == Sum(front, Level(r'.last)) + Level(r'.last)(c);
  }

  lemma {:induction false} RecordIsTrue(start: real, changes: seq<Change>)
    requires Ordered(changes)
    ensures Recorded(Record(Begin(start), changes), start, changes)
  {
    if changes != [] {
      var n := |changes| - 1;
      RecordIsTrue(start, changes[..n]);
      hide Add, Recorded;
      assert changes == changes[..n] + [changes[n]];
      assert forall x :: x in changes[..n] ==> x.time <= changes[n].time;
      RecordedStep(Record(Begin(start), changes[..n]), start, changes[..n], changes[n]);
    }
  }

  /** For changes in time order, the area up to any time is the sum, over the changes, of each
      jump times the time it has been in force, from `start` on. */
  lemma {:induction false} RecordIs(start: real, changes: seq<Change>, end: real)
    requires Ordered(changes)
    ensures AreaUpTo(Record(Begin(start), changes), end) == Sum(changes, Effect(start, end))
  {
    if changes == [] {
    } else {
      var n := |changes| - 1;
      var front, c := changes[..n], changes[n];
      RecordIs(start, front, end);
      RecordIsTrue(start, front);
      hide Add, AreaUpTo, Recorded, Effect, Times;
      var r := Record(Begin(start), front);
      assert forall x :: x in front ==> x.time <= c.time;
      RecordedStep(r, start, front, c);
      AreaStep(r, c, end);
    }
  }

  lemma {:induction false} SameSum(changes: seq<Change>, v: Change -> real, w: Change -> real)
    requires forall c :: c in changes ==> v(c) == w(c)
    ensures Sum(changes, v) == Sum(changes, w)
  {
    if changes != [] {
      assert forall c :: c in changes[..|changes| - 1] ==> c in changes;
      SameSum(changes[..|changes| - 1], v, w);
    }
  }

  // ----- Spans of time: jobs in the system, or guards held -----

  datatype Span = Span(from: real, to: real)

  /** The jumps of a count that a span makes by time `end`. */
  function Jumps(s: Span, end: real): seq<Change> {
    (if s.from <= end then [Change(s.from, 1.0)] else []) + (if s.to <= end then [Change(s.to, -1.0)] else [])
  }

  function AllJumps(spans: seq<Span>, end: real): seq<Change> {
    if spans == [] then [] else AllJumps(spans[..|spans| - 1], end) + Jumps(spans[|spans| - 1], end)
  }

  /** How much of a span lies between two times. */
  function Overlap(s: Span, start: real, end: real): real {
    Max(0.0, Min(s.to, end) - Max(s.from, start))
  }

  function TotalOverlap(spans: seq<Span>, start: real, end: real): real {
    if spans == [] then 0.0
    else TotalOverlap(spans[..|spans| - 1], start, end) + Overlap(spans[|spans| - 1], start, end)
  }

  predicate Forward(spans: seq<Span>) {
    forall s :: s in spans ==> s.from <= s.to
  }

  lemma JumpsWeigh(s: Span, end: real, weight: Change -> real)
    ensures Sum(Jumps(s, end), weight) == (if s.from <= end then weight(Change(s.from, 1.0)) else 0.0) +
                                          (if s.to <= end then weight(Change(s.to, -1.0)) else 0.0)
  {
    var up, down := [Change(s.from, 1.0)], [Change(s.to, -1.0)];
    SumConcat(if s.from <= end then up else [], if s.to <= end then down else [], weight);
    assert up[..0] == [] && down[..0] == [];
    assert Sum(up, weight) == weight(up[0]) && Sum(down, weight) == weight(down[0]);
  }

  lemma {:induction false} JumpsMakeOverlaps(spans: seq<Span>, start: real, end: real)
    requires Forward(spans) && start <= end
    ensures Sum(AllJumps(spans, end), Effect(start, end)) == TotalOverlap(spans, start, end)
  {
    if spans != [] {
      var front, s := spans[..|spans| - 1], spans[|spans| - 1];
      assert forall x :: x in front ==> x in spans;
      assert s in spans;
      JumpsMakeOverlaps(front, start, end);
      SumConcat(AllJumps(front, end), Jumps(s, end), Effect(start, end));
      JumpsWeigh(s, end, Effect(start, end));
    }
  }

  /** Little's identity on any sample path: if the level's changes are, in any time order that
      respects the clock, the arrivals and departures of the jobs, then its mean times the length
      of the window is the total time the jobs spend in the window. */
  lemma LittleIdentity(jobs: seq<Span>, changes: seq<Change>, start: real, end: real)
    requires Forward(jobs) && start < end
    requires Ordered(changes) && multiset(changes) == multiset(AllJumps(jobs, end))
    ensures Record(Begin(start), changes).start == start
    ensures Times(Mean(Record(Begin(start), changes), end), end - start) == TotalOverlap(jobs, start, end)
  {
    hide Mean, AreaUpTo, Effect, Times;
    var r := Record(Begin(start), changes);
    RecordIsTrue(start, changes);
    RecordIs(start, changes, end);
    SumPermuted(changes, AllJumps(jobs, end), Effect(start, end));
    JumpsMakeOverlaps(jobs, start, end);
    MeanTimesLength(r, end);
  }

  lemma MeanTimesLength(r: Recorder, end: real)
    requires end != r.start
    ensures Times(Mean(r, end), end - r.start) == AreaUpTo(r, end)
  {
  }

  // ----- The summary of a queue run -----

  /** What is kept of a customer who has left. */
  datatype Rec = Rec(wait: real, service: real, departure: real)

  function SumSojourn(recs: seq<Rec>): real {
    if recs == [] then 0.0
    else SumSojourn(recs[..|recs| - 1]) + (recs[|recs| - 1].wait + recs[|recs| - 1].service)
  }

  function SumService(recs: seq<Rec>): real {
    if recs == [] then 0.0 else SumService(recs[..|recs| - 1]) + recs[|recs| - 1].service
  }

  /** The last departure, or zero. */
  function TEnd(recs: seq<Rec>): real {
    if recs == [] then 0.0 else Max(TEnd(recs[..|recs| - 1]), recs[|recs| - 1].departure)
  }

  function MeanQueue(recs: seq<Rec>): real {
    if TEnd(recs) > 0.0 then SumSojourn(recs) / TEnd(recs) else 0.0
  }

  function Utilization(recs: seq<Rec>, servers: nat): real
    requires servers > 0
  {
    if TEnd(recs) > 0.0 then SumService(recs) / Times(servers as real, TEnd(recs)) else 0.0
  }

  /** The customer's stay, from arrival to departure, and the time a server was held. */
  function Stay(r: Rec): Span { Span(r.departure - r.service - r.wait, r.departure) }

  function Held(r: Rec): Span { Span(r.departure - r.service, r.departure) }

  function Spans(recs: seq<Rec>, f: Rec -> Span): seq<Span> {
    seq(|recs|, i requires 0 <= i < |recs| => f(recs[i]))
  }

  /** Waits and services are not negative, and the run starts at time zero. */
  predicate Plausible(recs: seq<Rec>) {
    forall r :: r in recs ==> r.wait >= 0.0 && r.service >= 0.0 && r.departure - r.service - r.wait >= 0.0
  }

  lemma {:induction false} LastDeparture(recs: seq<Rec>)
    ensures TEnd(recs) >= 0.0 && forall r :: r in recs ==> r.departure <= TEnd(recs)
  {
    if recs != [] {
      LastDeparture(recs[..|recs| - 1]);
      assert forall r :: r in recs ==> r in recs[..|recs| - 1] || r == recs[|recs| - 1];
    }
  }

  /** A stay within the window counts in full. */
  lemma WholeStay(r: Rec, end: real)
    requires r.wait >= 0.0 && r.service >= 0.0 && r.departure - r.service - r.wait >= 0.0 && r.departure <= end
    ensures Overlap(Stay(r), 0.0, end) == r.wait + r.service && Overlap(Held(r), 0.0, end) == r.service
  {
  }

  lemma {:induction false} StaysAreSojourns(recs: seq<Rec>, end: real)
    requires Plausible(recs) && forall r :: r in recs ==> r.departure <= end
    ensures TotalOverlap(Spans(recs, Stay), 0.0, end) == SumSojourn(recs)
    ensures TotalOverlap(Spans(recs, Held), 0.0, end) == SumService(recs)
    ensures Forward(Spans(recs, Stay)) && Forward(Spans(recs, Held))
  {
    hide Forward, Overlap, Stay, Held;
    SpansForward(recs);
    if recs != [] {
      var front, r := recs[..|recs| - 1], recs[|recs| - 1];
      assert forall x :: x in front ==> x in recs;
      assert r in recs;
      StaysAreSojourns(front, end);
      WholeStay(r, end);
      assert Spans(recs, Stay)[..|front|] == Spans(front, Stay);
      assert Spans(recs, Held)[..|front|] == Spans(front, Held);
    }
  }

  lemma SpansForward(recs: seq<Rec>)
    requires Plausible(recs)
    ensures Forward(Spans(recs, Stay)) && Forward(Spans(recs, Held))
  {
    forall s | s in Spans(recs, Stay) || s in Spans(recs, Held) ensures s.from <= s.to {
      var k: nat :| k < |recs| && (s == Stay(recs[k]) || s == Held(recs[k]));
      assert recs[k] in recs;
    }
  }

  /** The reported mean queue length is the time average of the number in the system over the run. */
  lemma MeanQueueIsMeanNumber(recs: seq<Rec>, changes: seq<Change>)
    requires Plausible(recs) && TEnd(recs) > 0.0
    requires Ordered(changes) && multiset(changes) == multiset(AllJumps(Spans(recs, Stay), TEnd(recs)))
    ensures Record(Begin(0.0), changes).start == 0.0
    ensures MeanQueue(recs) == Mean(Record(Begin(0.0), changes), TEnd(recs))
  {
    hide Times, Effect, AreaUpTo, Record, TEnd, SumSojourn, Plausible, AllJumps;
    var t := TEnd(recs);
    RecordIsTrue(0.0, changes);
    LastDeparture(recs);
    StaysAreSojourns(recs, t);
    RecordIs(0.0, changes, t);
    SumPermuted(changes, AllJumps(Spans(recs, Stay), t), Effect(0.0, t));
    JumpsMakeOverlaps(Spans(recs, Stay), 0.0, t);
  }

  // ----- Utilisation -----

  /** How many spans are under way at an instant. */
  function Active(spans: seq<Span>, at: real): nat {
    if spans == [] then 0
    else var s := spans[|spans| - 1];
         Active(spans[..|spans| - 1], at) + if s.from <= at < s.to then 1 else 0
  }

  lemma {:induction false} JumpsMakeActive(spans: seq<Span>, at: real, end: real)
    requires Forward(spans) && at <= end
    ensures Sum(AllJumps(spans, end), Level(at)) == Active(spans, at) as real
  {
    if spans != [] {
      var front, s := spans[..|spans| - 1], spans[|spans| - 1];
      assert forall x :: x in front ==> x in spans;
      assert s in spans;
      JumpsMakeActive(front, at, end);
      SumConcat(AllJumps(front, end), Jumps(s, end), Level(at));
      JumpsWeigh(s, end, Level(at));
    }
  }

  lemma InsertedInOrder(s: seq<Change>, k: nat, c: Change)
    requires Ordered(s) && k <= |s| && forall i :: 0 <= i < k ==> s[i].time <= c.time
    requires k < |s| ==> c.time <= s[k].time
    ensures Ordered(s[..k] + [c] + s[k..])
  {
    var sorted := s[..k] + [c] + s[k..];
    forall i, j | 0 <= i < j < |sorted| ensures sorted[i].time <= sorted[j].time {
      hide Ordered;
      assert j > k ==> sorted[j] == s[j - 1];
      assert j == k ==> sorted[i] == s[i];
    }
  }

  lemma PlaceFor(s: seq<Change>, c: Change) returns (k: nat)
    ensures k <= |s| && (forall i :: 0 <= i < k ==> s[i].time <= c.time) && (k < |s| ==> c.time <= s[k].time)
  {
    k := 0;
    while k < |s| && s[k].time <= c.time
      invariant k <= |s| && forall i :: 0 <= i < k ==> s[i].time <= c.time
    {
      k := k + 1;
    }
  }

  lemma {:induction false} SortByTime(changes: seq<Change>) returns (sorted: seq<Change>)
    ensures Ordered(sorted) && multiset(sorted) == multiset(changes)
  {
    if changes == [] {
      sorted := [];
    } else {
      hide Ordered;
      var n := |changes| - 1;
      assert changes == changes[..n] + [changes[n]];
      var s := SortByTime(changes[..n]);
      var k := PlaceFor(s, changes[n]);
      InsertedInOrder(s, k, changes[n]);
      sorted := s[..k] + [changes[n]] + s[k..];
      assert s == s[..k] + s[k..];
    }
  }

  /** Before the `n`-th change, in time order, the recorded level is the true one at the last change. */
  lemma LevelIsTrue(changes: seq<Change>, n: nat, start: real)
    requires Ordered(changes) && n <= |changes|
    requires n < |changes| ==> changes[n].time > Record(Begin(start), changes[..n]).last
    ensures var r := Record(Begin(start), changes[..n]); r.level == Sum(changes, Level(r.last))
  {
    hide Times, Effect, AreaUpTo, Add, Sum, Record, Level, Ordered;
    PrefixOrdered(changes, n);
    var front, rest := changes[..n], changes[n..];
    RecordIsTrue(start, front);
    var r := Record(Begin(start), front);
    assert changes == front + rest;
    SumConcat(front, rest, Level(r.last));
    RestIsLater(changes, n, r.last);
    NothingYet(rest, r.last);
  }

  lemma PrefixOrdered(changes: seq<Change>, n: nat)
    requires Ordered(changes) && n <= |changes|
    ensures Ordered(changes[..n])
  {
  }

  lemma RestIsLater(changes: seq<Change>, n: nat, at: real)
    requires Ordered(changes) && n <= |changes| && (n < |changes| ==> changes[n].time > at)
    ensures forall c :: c in changes[n..] ==> c.time > at
  {
    forall c | c in changes[n..] ensures c.time > at {
      var i :| 0 <= i < |changes[n..]| && changes[n..][i] == c;
    }
  }

  lemma {:induction false} NothingYet(changes: seq<Change>, at: real)
    requires forall c :: c in changes ==> c.time > at
    ensures Sum(changes, Level(at)) == 0.0
  {
    if changes != [] {
      assert changes[|changes| - 1] in changes;
      NothingYet(changes[..|changes| - 1], at);
    }
  }

  /** A level never above `most` from `start` on encloses at most `most` per unit of time. */
  lemma {:induction false} AreaIsBounded(changes: seq<Change>, n: nat, start: real, most: real)
    requires Ordered(changes) && n <= |changes|
    requires forall at: real :: Sum(changes, Level(at)) <= most
    ensures var r := Record(Begin(start), changes[..n]); r.start == start <= r.last && r.area <= Times(most, r.last - start)
  {
    hide Times, Effect, AreaUpTo, Add, Sum, Level, Ordered;
    if n > 0 {
      var front := changes[..n - 1];
      AreaIsBounded(changes, n - 1, start, most);
      assert changes[..n][..n - 1] == front;
      PrefixOrdered(changes, n - 1);
      RecordIsTrue(start, front);
      OneMoreArea(changes, n, start, most);
    } else {
      TimesIsLinear(most, 0.0, 0.0);
    }
  }

  lemma OneMoreArea(changes: seq<Change>, n: nat, start: real, most: real)
    requires Ordered(changes) && 0 < n <= |changes| && forall at: real :: Sum(changes, Level(at)) <= most
    requires var r := Record(Begin(start), changes[..n - 1]);
             Recorded(r, start, changes[..n - 1]) && r.area <= Times(most, r.last - start)
    ensures var r := Add(Record(Begin(start), changes[..n - 1]), changes[n - 1]);
            r.start == start <= r.last && r.area <= Times(most, r.last - start)
  {
    hide Times, Effect, AreaUpTo, Sum, Level, Ordered, Record;
    var r, c := Record(Begin(start), changes[..n - 1]), changes[n - 1];
    if c.time > start {
      EarlierChanges(changes, n);
      if c.time > r.last {
        LevelIsTrue(changes, n - 1, start);
        TimesIsMonotone(r.level, most, c.time - r.last);
      }
      TimesIsLinear(most, r.last - start, c.time - r.last);
      TimesIsLinear(r.level, 0.0, 0.0);
    }
  }

  lemma EarlierChanges(changes: seq<Change>, n: nat)
    requires Ordered(changes) && 0 < n <= |changes|
    ensures forall c :: c in changes[..n - 1] ==> c.time <= changes[n - 1].time
  {
  }

  lemma {:induction false} JumpsAreBy(spans: seq<Span>, end: real)
    ensures forall c :: c in AllJumps(spans, end) ==> c.time <= end
  {
    if spans != [] { JumpsAreBy(spans[..|spans| - 1], end); }
  }

  lemma LevelIsActive(guards: seq<Span>, changes: seq<Change>, at: real, end: real)
    requires Forward(guards) && multiset(changes) == multiset(AllJumps(guards, end))
    ensures Sum(changes, Level(at)) == Active(guards, Min(at, end)) as real
    ensures forall c :: c in changes ==> c.time <= end
  {
    var jumps := AllJumps(guards, end);
    JumpsAreBy(guards, end);
    forall c | c in changes ensures c.time <= end {
      assert c in multiset(changes);
    }
    SameSum(changes, Level(at), Level(Min(at, end)));
    SumPermuted(changes, jumps, Level(Min(at, end)));
    JumpsMakeActive(guards, Min(at, end), end);
  }

  lemma AreaAtEnd(changes: seq<Change>, most: real, end: real)
    requires Ordered(changes) && end >= 0.0 && forall c :: c in changes ==> c.time <= end
    requires forall at: real :: Sum(changes, Level(at)) <= most
    ensures AreaUpTo(Record(Begin(0.0), changes), end) <= Times(most, end)
  {
    hide Times, Effect;
    var n := |changes|;
    assert changes[..n] == changes;
    AreaIsBounded(changes, n, 0.0, most);
    LevelIsTrue(changes, n, 0.0);
    RecordIsTrue(0.0, changes);
    var r := Record(Begin(0.0), changes);
    TimesIsMonotone(r.level, most, end - r.last);
    TimesIsLinear(most, r.last, end - r.last);
  }

  /** A pool of servers is never more than fully used: if at no instant more guards are held than
      there are servers, the total service time is at most servers times the length of the run. */
  lemma BusyTimeIsBounded(guards: seq<Span>, servers: nat, end: real)
    requires Forward(guards) && end >= 0.0
    requires forall at: real :: Active(guards, at) <= servers
    ensures TotalOverlap(guards, 0.0, end) <= Times(servers as real, end)
  {
    hide Times, Effect, AreaUpTo, Level;
    var most := servers as real;
    var jumps := AllJumps(guards, end);
    var changes := SortByTime(jumps);
    LevelIsActive(guards, changes, end, end);
    forall at: real ensures Sum(changes, Level(at)) <= most {
      LevelIsActive(guards, changes, at, end);
      assert Active(guards, Min(at, end)) <= servers;
    }
    AreaAtEnd(changes, most, end);
    RecordIs(0.0, changes, end);
    SumPermuted(changes, jumps, Effect(0.0, end));
    JumpsMakeOverlaps(guards, 0.0, end);
  }

  /** Of records that never overlap more than the servers allow, the utilisation is at most one. */
  lemma UtilizationIsBounded(recs: seq<Rec>, servers: nat)
    requires Plausible(recs) && servers > 0
    requires forall at: real :: Active(Spans(recs, Held), at) <= servers
    ensures Utilization(recs, servers) <= 1.0
  {
    hide Times;
    LastDeparture(recs);
    StaysAreSojourns(recs, TEnd(recs));
    BusyTimeIsBounded(Spans(recs, Held), servers, TEnd(recs));
    if TEnd(recs) > 0.0 {
      TimesIsPositive(servers as real, TEnd(recs));
      Ratio(SumService(recs), Times(servers as real, TEnd(recs)));
    }
  }

  /** The length of the run is a departure, or zero when there is none; and what is reported for it,
      multiplied out, is the time the servers were held. */
  lemma UtilizationIsHeldTime(recs: seq<Rec>, servers: nat)
    requires Plausible(recs) && servers > 0
    ensures TEnd(recs) == 0.0 || exists r :: r in recs && r.departure == TEnd(recs)
    ensures forall r :: r in recs ==> r.departure <= TEnd(recs)
    ensures Times(Utilization(recs, servers), Times(servers as real, TEnd(recs)))
            == TotalOverlap(Spans(recs, Held), 0.0, TEnd(recs))
  {
    hide Times, TotalOverlap;
    LastDeparture(recs);
    SomeDeparture(recs);
    StaysAreSojourns(recs, TEnd(recs));
    if TEnd(recs) > 0.0 {
      TimesIsPositive(servers as real, TEnd(recs));
      Quotient(SumService(recs), Times(servers as real, TEnd(recs)));
    } else {
      NoTime(recs);
      TimesIsLinear(0.0, 0.0, 0.0);
      TimesIsLinear(servers as real, 0.0, 0.0);
    }
  }

  lemma {:induction false} SomeDeparture(recs: seq<Rec>)
    ensures TEnd(recs) == 0.0 || exists r :: r in recs && r.departure == TEnd(recs)
  {
    if recs != [] {
      SomeDeparture(recs[..|recs| - 1]);
      assert recs[|recs| - 1] in recs;
      assert forall r :: r in recs[..|recs| - 1] ==> r in recs;
    }
  }

  lemma {:induction false} NoTime(recs: seq<Rec>)
    requires Plausible(recs) && forall r :: r in recs ==> r.departure <= 0.0
    ensures SumService(recs) == 0.0
  {
    if recs != [] {
      assert recs[|recs| - 1] in recs;
      assert forall r :: r in recs[..|recs| - 1] ==> r in recs;
      NoTime(recs[..|recs| - 1]);
    }
  }

  lemma Quotient(x: real, y: real)
    requires y != 0.0
    ensures Times(x / y, y) == x
  {
  }

  lemma Ratio(x: real, y: real)
    requires y > 0.0 && x <= y
    ensures x / y <= 1.0
  {
  }

  // ----- The recorder as an object -----

  class TimeAvg {
    const start: real
    var last: real
    var area: real
    var level: real
    ghost var changes: seq<Change>

    ghost function View(): Recorder
      reads this
    {
      Recorder(start, last, area, level)
    }

    ghost predicate Valid()
      reads this
    {
      View() == Record(Begin(start), changes)
    }

    constructor (start: real)
      ensures this.start == start && Valid() && changes == []
    {
      this.start, last, area, level := start, start, 0.0, 0.0;
      changes := [];
    }

    /** Changes before `start` set the level but contribute no area. */
    method Add(now: real, delta: real)
      requires Valid()
      modifies this
      ensures Valid() && changes == old(changes) + [Change(now, delta)]
    {
      changes := changes + [Change(now, delta)];
      assert changes[..|changes| - 1] == old(changes);
      if now <= start {
        level := level + delta;
        return;
      }
      area := area + Times(level, now - last);
      last := now;
      level := level + delta;
    }

    method MeanUntil(end: real) returns (m: real)
      requires Valid() && end != start
      ensures m == Mean(View(), end)
      ensures Ordered(changes) ==> Times(m, end - start) == Sum(changes, Effect(start, end))
    {
      m := (area + Times(level, end - last)) / (end - start);
      hide Record, Effect, Times, Ordered;
      if Ordered(changes) {
        RecordIs(start, changes, end);
        MeanTimesLength(View(), end);
      }
    }
  }
}
