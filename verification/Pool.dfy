/** Resource and PriorityResource: what requests and guards do to the shared queue, and the
    ideal pool of owned units that they implement. A FIFO Resource gives every request key 0. */
module Pools {
  import opened Options
  import opened WaitQueues

  /** The future's own flags, the two cells shared with its queue entry, whether the future
      has been dropped, and whether the guard it produced is still alive. `owner` is the
      process whose waker the entry holds. */
  datatype Request = Request(owner: nat, key: nat, registered: bool, consumed: bool,
                             canceled: bool, granted: bool, dropped: bool, guard: bool)

  datatype Pool = Pool(q: Queue, reqs: seq<Request>)

  datatype Action =
    | New(owner: nat, key: nat)
    | Poll(i: nat)
    | DropRequest(i: nat)
    | DropGuard(i: nat)

  /** The pool after an action, whether a poll was Ready, and whom the action woke. */
  datatype Outcome = Outcome(pool: Pool, ready: bool, woken: Option<nat>)

  function Init(capacity: nat): Pool {
    Pool(Queue(capacity, 0, 0, []), [])
  }

  /** A future is polled only until it is Ready, and everything is dropped at most once. */
  predicate Enabled(p: Pool, a: Action) {
    match a
    case New(_, _) => true
    case Poll(i) => i < |p.reqs| && !p.reqs[i].dropped && !p.reqs[i].consumed
    case DropRequest(i) => i < |p.reqs| && !p.reqs[i].dropped
    case DropGuard(i) => i < |p.reqs| && p.reqs[i].guard
  }

  function Canceled(p: Pool): set<nat> {
    set i | 0 <= i < |p.reqs| && p.reqs[i].canceled
  }

  function ReleaseUnit(p: Pool): Outcome {
    var (q, next) := Release(p.q, Canceled(p));
    match next
    case None => Outcome(p.(q := q), false, None)
    case Some(j) =>
      if j < |p.reqs| then Outcome(Pool(q, p.reqs[j := p.reqs[j].(granted := true)]), false, Some(j))
      else Outcome(p.(q := q), false, None)
  }

  /** One poll of request `i`: the queue, the request's flags and whether it was Ready. */
  function PollOne(q: Queue, r: Request, i: nat): (Queue, Request, bool) {
    if r.granted then (q, r.(consumed := true, guard := true), true)
    else
      var (q', acquired) := TryAcquire(q);
      if acquired then (q', r.(consumed := true, guard := true), true)
      else if !r.registered then (Register(q', r.key, i), r.(registered := true), false)
      else (q', r, false)
  }

  function PollRequest(p: Pool, i: nat): Outcome
    requires i < |p.reqs|
  {
    var (q, r, ready) := PollOne(p.q, p.reqs[i], i);
    Outcome(Pool(q, p.reqs[i := r]), ready, None)
  }

  /** Dropping a future: its flags, and whether it held a unit that must be passed on. */
  function Leave(r: Request): (Request, bool) {
    if r.consumed then (r.(dropped := true), false)
    else if r.granted then (r.(dropped := true), true)
    else if r.registered then (r.(dropped := true, canceled := true), false)
    else (r.(dropped := true), false)
  }

  function Step(p: Pool, a: Action): Outcome
    requires Enabled(p, a)
  {
    match a
    case New(owner, key) =>
      Outcome(p.(reqs := p.reqs + [Request(owner, key, false, false, false, false, false, false)]), false, None)
    case Poll(i) => PollRequest(p, i)
    case DropRequest(i) =>
      var (r, passOn) := Leave(p.reqs[i]);
      var p' := p.(reqs := p.reqs[i := r]);
      if passOn then ReleaseUnit(p') else Outcome(p', false, None)
    case DropGuard(i) =>
      ReleaseUnit(p.(reqs := p.reqs[i := p.reqs[i].(guard := false)]))
  }

  // ----- What the pool keeps -----

  ghost function Guards(p: Pool): set<nat> {
    set i | 0 <= i < |p.reqs| && p.reqs[i].guard
  }

  /** Units handed to a request that has neither turned them into a guard nor passed them on. */
  ghost function Grants(p: Pool): set<nat> {
    set i | 0 <= i < |p.reqs| && p.reqs[i].granted && !p.reqs[i].consumed && !p.reqs[i].dropped
  }

  ghost predicate FlagsInv(p: Pool) {
    forall i :: 0 <= i < |p.reqs| ==>
      var r := p.reqs[i];
      && (r.guard ==> r.consumed)
      && (r.canceled ==> r.registered && r.dropped && !r.granted && !r.consumed)
      && (r.granted ==> r.registered)
      && (r.registered && r.consumed ==> r.granted)
      && (r.registered && !r.granted ==> Parked(p.q.heap, i) || r.canceled)
      && (r.registered && !r.granted && r.dropped ==> r.canceled)
  }

  ghost predicate HeapInv(p: Pool) {
    && WellFormed(p.q.heap, p.q.nextTicket)
    && forall k :: 0 <= k < |p.q.heap| ==>
         var e := p.q.heap[k];
         && e.req < |p.reqs|
         && p.reqs[e.req].key == e.key
         && p.reqs[e.req].registered && !p.reqs[e.req].granted && !p.reqs[e.req].consumed
  }

  /** `inUse` counts the units owned, and a parked entry, live or dead, means a full pool. */
  ghost predicate UnitsInv(p: Pool) {
    && p.q.inUse == |Guards(p)| + |Grants(p)|
    && p.q.inUse <= p.q.capacity
    && (p.q.heap != [] ==> p.q.inUse == p.q.capacity)
  }

  ghost predicate Inv(p: Pool) {
    FlagsInv(p) && HeapInv(p) && UnitsInv(p)
  }

  // ----- The ideal pool -----

  /** A pool as its users see it: who holds a guard, whose grant is not picked up yet, and a
      queue that abandoned requests leave at once. It has no free-unit counter, and it never
      tries to take a unit for a request that is already waiting. */
  datatype Ideal = Ideal(capacity: nat, keys: seq<nat>, guards: set<nat>, grants: set<nat>,
                         nextTicket: nat, waiting: seq<Entry>)

  datatype IdealOutcome = IdealOutcome(ideal: Ideal, ready: bool, woken: Option<nat>)

  function HandOff(d: Ideal): IdealOutcome {
    if d.waiting == [] then IdealOutcome(d, false, None)
    else
      var next := d.waiting[0].req;
      IdealOutcome(d.(grants := d.grants + {next}, waiting := d.waiting[1..]), false, Some(next))
  }

  ghost function IdealStep(d: Ideal, a: Action): IdealOutcome
    requires a.Poll? ==> a.i < |d.keys|
  {
    match a
    case New(_, key) => IdealOutcome(d.(keys := d.keys + [key]), false, None)
    case Poll(i) =>
      if i in d.grants then
        IdealOutcome(d.(grants := d.grants - {i}, guards := d.guards + {i}), true, None)
      else if Parked(d.waiting, i) then IdealOutcome(d, false, None)
      else if d.waiting == [] && |d.guards| + |d.grants| < d.capacity then
        IdealOutcome(d.(guards := d.guards + {i}), true, None)
      else
        IdealOutcome(d.(nextTicket := d.nextTicket + 1,
                        waiting := Insert(d.waiting, Entry(d.keys[i], d.nextTicket, i))), false, None)
    case DropRequest(i) =>
      if i in d.grants then HandOff(d.(grants := d.grants - {i}))
      else IdealOutcome(d.(waiting := Live(d.waiting, {i})), false, None)
    case DropGuard(i) => HandOff(d.(guards := d.guards - {i}))
  }

  function Keys(p: Pool): seq<nat> {
    seq(|p.reqs|, i requires 0 <= i < |p.reqs| => p.reqs[i].key)
  }

  ghost function Abs(p: Pool): Ideal {
    Ideal(p.q.capacity, Keys(p), Guards(p), Grants(p), p.q.nextTicket, Live(p.q.heap, Canceled(p)))
  }

  /** One step of the flag-and-counter pool is one step of the ideal pool. */
  ghost predicate Simulates(p: Pool, a: Action)
    requires Enabled(p, a)
  {
    var o := Step(p, a);
    var d := IdealStep(Abs(p), a);
    Abs(o.pool) == d.ideal && o.ready == d.ready && o.woken == d.woken
  }

  // ----- Releasing -----

  /** A pool whose counter still includes one unit that nobody owns any more. */
  ghost predicate InvButOne(p: Pool) {
    && FlagsInv(p) && HeapInv(p)
    && p.q.inUse == |Guards(p)| + |Grants(p)| + 1
    && p.q.inUse <= p.q.capacity
    && (p.q.heap != [] ==> p.q.inUse == p.q.capacity)
  }

  lemma ReleaseFrees(p: Pool)
    requires InvButOne(p) && SkipDead(p.q.heap, Canceled(p)) == []
    ensures Inv(ReleaseUnit(p).pool)
    ensures Abs(ReleaseUnit(p).pool) == Abs(p)
  {
    var h := p.q.heap;
    var p' := ReleaseUnit(p).pool;
    assert Guards(p') == Guards(p) && Grants(p') == Grants(p) && Canceled(p') == Canceled(p);
    SkipDeadServesLiveHead(h, Canceled(p));
    LiveElements(h, Canceled(p));
    forall i | 0 <= i < |p.reqs| && Parked(h, i) ensures p.reqs[i].canceled {
      var j :| 0 <= j < |h| && h[j].req == i;
      assert h[j] in h;
    }
  }

  /** The live head at `k` leaves the queue with a unit. */
  function HandedOver(p: Pool, k: nat): Pool
    requires k < |p.q.heap| && p.q.heap[k].req < |p.reqs|
  {
    var next := p.q.heap[k].req;
    Pool(p.q.(heap := p.q.heap[k + 1..]), p.reqs[next := p.reqs[next].(granted := true)])
  }

  lemma HandedOverHeap(p: Pool, k: nat)
    requires HeapInv(p) && k < |p.q.heap|
    ensures HeapInv(HandedOver(p, k))
  {
    var h := p.q.heap;
    var h' := h[k + 1..];
    SuffixWellFormed(h, k + 1, p.q.nextTicket);
    forall j | 0 <= j < |h'| ensures h'[j] == h[j + k + 1] && h'[j].req != h[k].req {
    }
  }

  lemma HandedOverFlags(p: Pool, k: nat)
    requires FlagsInv(p) && HeapInv(p) && k < |p.q.heap| && p.q.heap[k].req !in Canceled(p)
    requires forall i :: 0 <= i < k ==> p.q.heap[i].req in Canceled(p)
    ensures FlagsInv(HandedOver(p, k))
  {
    hide WellFormed;
    var h := p.q.heap;
    var h' := h[k + 1..];
    forall i | 0 <= i < |p.reqs| && i != h[k].req && Parked(h, i) && !p.reqs[i].canceled
      ensures Parked(h', i)
    {
      var j :| 0 <= j < |h| && h[j].req == i;
      assert h'[j - k - 1] == h[j];
    }
  }

  lemma HandedOverSets(p: Pool, k: nat)
    requires k < |p.q.heap| && p.q.heap[k].req < |p.reqs|
    requires var r := p.reqs[p.q.heap[k].req]; !r.granted && !r.consumed && !r.dropped
    ensures var p' := HandedOver(p, k); var next := p.q.heap[k].req;
            && Canceled(p') == Canceled(p) && Guards(p') == Guards(p)
            && Grants(p') == Grants(p) + {next} && next !in Grants(p)
  {
    var p' := HandedOver(p, k);
    assert Canceled(p') == Canceled(p);
    assert Guards(p') == Guards(p);
    assert Grants(p') == Grants(p) + {p.q.heap[k].req};
  }

  lemma ReleaseHandsOver(p: Pool, k: nat)
    requires InvButOne(p) && k < |p.q.heap| && p.q.heap[k].req !in Canceled(p)
    requires SkipDead(p.q.heap, Canceled(p)) == p.q.heap[k..]
    requires forall i :: 0 <= i < k ==> p.q.heap[i].req in Canceled(p)
    ensures Inv(ReleaseUnit(p).pool)
    ensures var p' := ReleaseUnit(p).pool; var next := p.q.heap[k].req;
            && Canceled(p') == Canceled(p) && Guards(p') == Guards(p)
            && Grants(p') == Grants(p) + {next}
  {
    var h := p.q.heap;
    assert h[k..][1..] == h[k + 1..];
    var p' := HandedOver(p, k);
    assert ReleaseUnit(p).pool == p';
    HandedOverHeap(p, k);
    HandedOverFlags(p, k);
    HandedOverSets(p, k);
    hide ReleaseUnit, HeapInv, FlagsInv, Guards, Grants, Canceled;
  }

  lemma ReleaseKeepsInv(p: Pool)
    requires InvButOne(p)
    ensures Inv(ReleaseUnit(p).pool)
    ensures var o := ReleaseUnit(p); var d := HandOff(Abs(p));
            Abs(o.pool) == d.ideal && !o.ready && o.woken == d.woken
  {
    var h := p.q.heap;
    var k := SkipDeadSuffix(h, Canceled(p));
    SkipDeadServesLiveHead(h, Canceled(p));
    if k == |h| {
      ReleaseFrees(p);
    } else {
      ReleaseHandsOver(p, k);
    }
  }

  // ----- Each action -----

  lemma NewSimulates(p: Pool, a: Action)
    requires Inv(p) && a.New?
    ensures Inv(Step(p, a).pool) && Simulates(p, a)
  {
    var p' := Step(p, a).pool;
    assert Guards(p') == Guards(p) && Grants(p') == Grants(p) && Canceled(p') == Canceled(p);
    assert Keys(p') == Keys(p) + [a.key];
  }

  lemma LiveParked(p: Pool, i: nat)
    requires Inv(p) && i < |p.reqs|
    ensures Parked(Live(p.q.heap, Canceled(p)), i) <==>
            p.reqs[i].registered && !p.reqs[i].granted && !p.reqs[i].canceled
  {
    var h := p.q.heap;
    var live := Live(h, Canceled(p));
    LiveElements(h, Canceled(p));
    if Parked(live, i) {
      var k :| 0 <= k < |live| && live[k].req == i;
      assert live[k] in h;
    }
    if p.reqs[i].registered && !p.reqs[i].granted && !p.reqs[i].canceled {
      var j :| 0 <= j < |h| && h[j].req == i;
      assert h[j] in live;
    }
  }

  lemma PollReadySets(p: Pool, i: nat)
    requires Inv(p) && Enabled(p, Poll(i)) && (p.reqs[i].granted || p.q.inUse < p.q.capacity)
    ensures var p' := Step(p, Poll(i)).pool;
            && Canceled(p') == Canceled(p)
            && Guards(p') == Guards(p) + {i} && i !in Guards(p)
            && Grants(p') == Grants(p) - {i} && (i in Grants(p) <==> p.reqs[i].granted)
  {
    hide HeapInv, UnitsInv;
    var p' := Step(p, Poll(i)).pool;
    assert p'.reqs == p.reqs[i := p.reqs[i].(consumed := true, guard := true)];
    hide PollRequest, PollOne;
    assert Canceled(p') == Canceled(p);
    assert Guards(p') == Guards(p) + {i};
    assert Grants(p') == Grants(p) - {i};
  }

  lemma PollReadyFlags(p: Pool, i: nat)
    requires FlagsInv(p) && HeapInv(p) && Enabled(p, Poll(i))
    requires p.reqs[i].granted || p.q.heap == []
    ensures var p' := p.(reqs := p.reqs[i := p.reqs[i].(consumed := true, guard := true)]);
            (p.reqs[i].granted || !p.reqs[i].registered ==> FlagsInv(p')) && HeapInv(p')
  {
    forall k | 0 <= k < |p.q.heap| ensures p.q.heap[k].req != i {
    }
  }

  lemma PollReadyInv(p: Pool, i: nat)
    requires Inv(p) && Enabled(p, Poll(i)) && (p.reqs[i].granted || p.q.inUse < p.q.capacity)
    ensures Inv(Step(p, Poll(i)).pool)
  {
    PollReadySets(p, i);
    PollReadyFlags(p, i);
    assert p.q.heap == [] && !p.reqs[i].granted ==> !p.reqs[i].registered;
    hide FlagsInv, HeapInv, Guards, Grants;
    var p' := Step(p, Poll(i)).pool;
    FlagsFrame(p.(reqs := p'.reqs), p');
  }

  lemma FlagsFrame(p: Pool, p': Pool)
    requires FlagsInv(p) && HeapInv(p) && p'.reqs == p.reqs
    requires p'.q.heap == p.q.heap && p'.q.nextTicket == p.q.nextTicket
    ensures FlagsInv(p') && HeapInv(p')
  {
  }

  lemma PollReadySimulates(p: Pool, i: nat)
    requires Inv(p) && Enabled(p, Poll(i)) && (p.reqs[i].granted || p.q.inUse < p.q.capacity)
    ensures Simulates(p, Poll(i))
  {
    PollReadySets(p, i);
    LiveParked(p, i);
  }

  lemma PollAgainSimulates(p: Pool, i: nat)
    requires Inv(p) && Enabled(p, Poll(i)) && !p.reqs[i].granted && p.reqs[i].registered
    ensures Step(p, Poll(i)) == Outcome(p, false, None) && Simulates(p, Poll(i))
  {
    LiveParked(p, i);
  }

  lemma PollParksInv(p: Pool, i: nat)
    requires Inv(p) && Enabled(p, Poll(i))
    requires !p.reqs[i].granted && !p.reqs[i].registered && p.q.inUse == p.q.capacity
    ensures Inv(Step(p, Poll(i)).pool)
  {
    var p' := Step(p, Poll(i)).pool;
    var h, h' := p.q.heap, p'.q.heap;
    var e := Entry(p.reqs[i].key, p.q.nextTicket, i);
    assert Guards(p') == Guards(p) && Grants(p') == Grants(p);
    InsertWellFormed(h, p.q.nextTicket, e.key, i);
    InsertElements(h, e);
    forall k | 0 <= k < |h'| ensures h'[k] == e || h'[k] in h {
      assert h'[k] in h';
    }
    forall j | 0 <= j < |p.reqs| && (Parked(h, j) || j == i) ensures Parked(h', j) {
      InsertKeepsParked(h, e, j);
    }
  }

  lemma PollParksSimulates(p: Pool, i: nat)
    requires Inv(p) && Enabled(p, Poll(i))
    requires !p.reqs[i].granted && !p.reqs[i].registered && p.q.inUse == p.q.capacity
    ensures Simulates(p, Poll(i))
  {
    var p' := Step(p, Poll(i)).pool;
    assert Canceled(p') == Canceled(p) && Guards(p') == Guards(p) && Grants(p') == Grants(p);
    LiveParked(p, i);
    LiveInsert(p.q.heap, Entry(p.reqs[i].key, p.q.nextTicket, i), Canceled(p));
  }

  lemma PollSimulates(p: Pool, i: nat)
    requires Inv(p) && Enabled(p, Poll(i))
    ensures Inv(Step(p, Poll(i)).pool) && Simulates(p, Poll(i))
  {
    if p.reqs[i].granted || p.q.inUse < p.q.capacity {
      PollReadyInv(p, i);
      PollReadySimulates(p, i);
    } else if p.reqs[i].registered {
      PollAgainSimulates(p, i);
    } else {
      PollParksInv(p, i);
      PollParksSimulates(p, i);
    }
  }

  lemma UnitStillCounted(p: Pool)
    requires InvButOne(p)
    ensures p.q.inUse > 0
  {
  }

  lemma UnpickedGrant(p: Pool, i: nat)
    requires Inv(p) && Enabled(p, DropRequest(i)) && Leave(p.reqs[i]).1
    ensures InvButOne(p.(reqs := p.reqs[i := Leave(p.reqs[i]).0]))
  {
    var mid := p.(reqs := p.reqs[i := p.reqs[i].(dropped := true)]);
    assert Guards(mid) == Guards(p);
    assert i in Grants(p) && Grants(mid) == Grants(p) - {i};
  }

  lemma LostGuard(p: Pool, i: nat)
    requires Inv(p) && Enabled(p, DropGuard(i))
    ensures InvButOne(p.(reqs := p.reqs[i := p.reqs[i].(guard := false)]))
  {
    var mid := p.(reqs := p.reqs[i := p.reqs[i].(guard := false)]);
    assert Grants(mid) == Grants(p);
    assert i in Guards(p) && Guards(mid) == Guards(p) - {i};
  }

  lemma DropGrantedSimulates(p: Pool, i: nat)
    requires Inv(p) && Enabled(p, DropRequest(i)) && p.reqs[i].granted && !p.reqs[i].consumed
    ensures Inv(Step(p, DropRequest(i)).pool) && Simulates(p, DropRequest(i))
  {
    UnpickedGrant(p, i);
    var mid := p.(reqs := p.reqs[i := p.reqs[i].(dropped := true)]);
    assert Guards(mid) == Guards(p) && Canceled(mid) == Canceled(p);
    assert i in Grants(p) && Grants(mid) == Grants(p) - {i};
    assert Keys(mid) == Keys(p);
    ReleaseKeepsInv(mid);
  }

  lemma DropParkedSimulates(p: Pool, i: nat)
    requires Inv(p) && Enabled(p, DropRequest(i))
    requires !p.reqs[i].granted && !p.reqs[i].consumed && p.reqs[i].registered
    ensures Inv(Step(p, DropRequest(i)).pool) && Simulates(p, DropRequest(i))
  {
    var p' := Step(p, DropRequest(i)).pool;
    assert Guards(p') == Guards(p) && Grants(p') == Grants(p);
    assert Canceled(p') == Canceled(p) + {i};
    LiveCancel(p.q.heap, Canceled(p), i);
  }

  lemma DropIdleInv(p: Pool, i: nat)
    requires Inv(p) && Enabled(p, DropRequest(i))
    requires p.reqs[i].consumed || (!p.reqs[i].granted && !p.reqs[i].registered)
    ensures var p' := Step(p, DropRequest(i)).pool;
            Inv(p') && Guards(p') == Guards(p) && Grants(p') == Grants(p) && Canceled(p') == Canceled(p)
  {
    var p' := Step(p, DropRequest(i)).pool;
    assert Guards(p') == Guards(p) && Grants(p') == Grants(p) && Canceled(p') == Canceled(p);
  }

  lemma DropIdleSimulates(p: Pool, i: nat)
    requires Inv(p) && Enabled(p, DropRequest(i))
    requires p.reqs[i].consumed || (!p.reqs[i].granted && !p.reqs[i].registered)
    ensures Inv(Step(p, DropRequest(i)).pool) && Simulates(p, DropRequest(i))
  {
    DropIdleInv(p, i);
    LiveParked(p, i);
    LiveIdentity(Live(p.q.heap, Canceled(p)), {i});
    assert i !in Grants(p);
    hide Inv, Guards, Grants, Canceled;
  }

  lemma DropRequestSimulates(p: Pool, i: nat)
    requires Inv(p) && Enabled(p, DropRequest(i))
    ensures Inv(Step(p, DropRequest(i)).pool) && Simulates(p, DropRequest(i))
  {
    if p.reqs[i].consumed || (!p.reqs[i].granted && !p.reqs[i].registered) {
      DropIdleSimulates(p, i);
    } else if p.reqs[i].granted {
      DropGrantedSimulates(p, i);
    } else {
      DropParkedSimulates(p, i);
    }
  }

  lemma DropGuardSimulates(p: Pool, i: nat)
    requires Inv(p) && Enabled(p, DropGuard(i))
    ensures Inv(Step(p, DropGuard(i)).pool) && Simulates(p, DropGuard(i))
  {
    LostGuard(p, i);
    var mid := p.(reqs := p.reqs[i := p.reqs[i].(guard := false)]);
    assert Grants(mid) == Grants(p) && Canceled(mid) == Canceled(p);
    assert i in Guards(p) && Guards(mid) == Guards(p) - {i};
    assert Keys(mid) == Keys(p);
    ReleaseKeepsInv(mid);
  }

  lemma StepSimulates(p: Pool, a: Action)
    requires Inv(p) && Enabled(p, a)
    ensures Inv(Step(p, a).pool) && Simulates(p, a)
  {
    match a
    case New(_, _) => NewSimulates(p, a);
    case Poll(i) => PollSimulates(p, i);
    case DropRequest(i) => DropRequestSimulates(p, i);
    case DropGuard(i) => DropGuardSimulates(p, i);
  }

  lemma StepKeepsInv(p: Pool, a: Action)
    requires Inv(p) && Enabled(p, a)
    ensures Inv(Step(p, a).pool)
  {
    StepSimulates(p, a);
  }

  // ----- Whole runs -----

  predicate ValidRun(p: Pool, acts: seq<Action>)
    decreases |acts|
  {
    acts == [] || (Enabled(p, acts[0]) && ValidRun(Step(p, acts[0]).pool, acts[1..]))
  }

  function Run(p: Pool, acts: seq<Action>): Pool
    requires ValidRun(p, acts)
    decreases |acts|
  {
    if acts == [] then p else Run(Step(p, acts[0]).pool, acts[1..])
  }

  /** What a user sees of a run: which polls were Ready and who was woken. */
  function Observe(p: Pool, acts: seq<Action>): seq<(bool, Option<nat>)>
    requires ValidRun(p, acts)
    decreases |acts|
  {
    if acts == [] then []
    else var o := Step(p, acts[0]); [(o.ready, o.woken)] + Observe(o.pool, acts[1..])
  }

  ghost predicate IdealShows(d: Ideal, acts: seq<Action>, seen: seq<(bool, Option<nat>)>)
    decreases |acts|
  {
    if acts == [] then seen == []
    else
      && (acts[0].Poll? ==> acts[0].i < |d.keys|)
      && seen != []
      && var o := IdealStep(d, acts[0]);
         seen[0] == (o.ready, o.woken) && IdealShows(o.ideal, acts[1..], seen[1..])
  }

  lemma InitInv(capacity: nat)
    ensures Inv(Init(capacity))
    ensures Abs(Init(capacity)) == Ideal(capacity, [], {}, {}, 0, [])
  {
    assert Guards(Init(capacity)) == {} && Grants(Init(capacity)) == {};
  }

  lemma {:induction false} RunKeepsInv(p: Pool, acts: seq<Action>)
    requires Inv(p) && ValidRun(p, acts)
    ensures Inv(Run(p, acts)) && Run(p, acts).q.capacity == p.q.capacity
    decreases |acts|
  {
    hide Inv;
    if acts != [] {
      StepKeepsInv(p, acts[0]);
      RunKeepsInv(Step(p, acts[0]).pool, acts[1..]);
    }
  }

  lemma {:induction false} RunRefines(p: Pool, acts: seq<Action>)
    requires Inv(p) && ValidRun(p, acts)
    ensures IdealShows(Abs(p), acts, Observe(p, acts))
    decreases |acts|
  {
    if acts != [] {
      var o := Step(p, acts[0]);
      StepSimulates(p, acts[0]);
      RunRefines(o.pool, acts[1..]);
      assert Observe(p, acts)[1..] == Observe(o.pool, acts[1..]);
    }
  }

  /** Conservation: over any interleaving of polls, re-polls and drops, every unit counted as in
      use is owned by a live guard or by a grant still to be picked up, the capacity is never
      exceeded, the counter never goes below zero, and nobody is parked while a unit is free. */
  lemma PoolConservation(capacity: nat, acts: seq<Action>)
    requires ValidRun(Init(capacity), acts)
    ensures var p := Run(Init(capacity), acts);
            && p.q.inUse == |Guards(p)| + |Grants(p)| && Guards(p) !! Grants(p)
            && 0 <= p.q.inUse <= capacity
            && forall i :: 0 <= i < |p.reqs| && p.reqs[i].registered && !p.reqs[i].granted && !p.reqs[i].dropped
                 ==> p.q.inUse == capacity
  {
    InitInv(capacity);
    RunKeepsInv(Init(capacity), acts);
  }

  /** The real pool and the ideal one cannot be told apart by any run. */
  lemma PoolIsIdeal(capacity: nat, acts: seq<Action>)
    requires ValidRun(Init(capacity), acts)
    ensures IdealShows(Ideal(capacity, [], {}, {}, 0, []), acts, Observe(Init(capacity), acts))
  {
    InitInv(capacity);
    RunRefines(Init(capacity), acts);
  }

  /** A release grants the least live waiter, and frees the unit exactly when there is none. */
  lemma ReleaseServesLeast(p: Pool)
    requires HeapInv(p)
    ensures var o := ReleaseUnit(p); var live := Live(p.q.heap, Canceled(p));
            && (o.woken.None? <==> live == [])
            && (o.woken.None? ==> o.pool.q.inUse == p.q.inUse - 1 && o.pool.reqs == p.reqs)
            && (o.woken.Some? ==>
                  && live[0].req == o.woken.value < |p.reqs|
                  && (forall e :: e in live && e != live[0] ==>
                        live[0].key < e.key || (live[0].key == e.key && live[0].ticket < e.ticket))
                  && o.pool.q.inUse == p.q.inUse
                  && o.pool.reqs == p.reqs[live[0].req := p.reqs[live[0].req].(granted := true)])
  {
    var live := Live(p.q.heap, Canceled(p));
    LiveWellFormed(p.q.heap, Canceled(p), p.q.nextTicket);
    SkipDeadServesLiveHead(p.q.heap, Canceled(p));
    LiveElements(p.q.heap, Canceled(p));
    if live != [] {
      assert live[0] in p.q.heap;
    }
  }

  /** A request that was not handed its unit is Ready only if nobody is parked. */
  lemma FreshNeverOvertakes(p: Pool, i: nat)
    requires Inv(p) && Enabled(p, Poll(i)) && Step(p, Poll(i)).ready && !p.reqs[i].granted
    ensures p.q.heap == [] && !p.reqs[i].registered
  {
    LiveParked(p, i);
  }
}
