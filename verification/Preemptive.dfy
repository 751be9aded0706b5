/** PreemptiveResource: eviction, handoff and the exact conditions under which a unit can be
    granted to a request that is no longer there to use it. */
module Preemption {
  import opened Options
  import opened WaitQueues

  /** `redeemed` is history: the grant was turned into a holder or passed on by dropping. */
  datatype Request = Request(owner: nat, priority: nat, registered: bool, consumed: bool,
                             canceled: bool, granted: bool, dropped: bool, redeemed: bool)

  datatype Holder = Holder(priority: nat, id: nat)

  datatype Guard = Guard(preempted: bool, dropped: bool)

  /** Guards are indexed by holder id, so `|guards|` is the next holder id. */
  datatype State = State(q: Queue, holders: seq<Holder>, guards: seq<Guard>, reqs: seq<Request>)

  datatype Action =
    | New(owner: nat, priority: nat)
    | Poll(i: nat)
    | DropRequest(i: nat)
    | DropGuard(id: nat)

  function Init(capacity: nat): State {
    State(Queue(capacity, 0, 0, []), [], [], [])
  }

  predicate Enabled(s: State, a: Action) {
    match a
    case New(_, _) => true
    case Poll(i) => i < |s.reqs| && !s.reqs[i].dropped && !s.reqs[i].consumed
    case DropRequest(i) => i < |s.reqs| && !s.reqs[i].dropped
    case DropGuard(id) => id < |s.guards| && !s.guards[id].dropped
  }

  /** The last of the worst-priority holders among the first `n` that `incoming` outranks. */
  function VictimAmong(hs: seq<Holder>, incoming: nat, n: nat): (r: Option<nat>)
    requires n <= |hs|
    ensures r.Some? ==> r.value < n
  {
    if n == 0 then None
    else
      var best := VictimAmong(hs, incoming, n - 1);
      if hs[n - 1].priority > incoming && (best.None? || hs[best.value].priority <= hs[n - 1].priority)
      then Some(n - 1) else best
  }

  function Victim(hs: seq<Holder>, incoming: nat): (r: Option<nat>)
    ensures r.Some? ==> r.value < |hs|
  {
    VictimAmong(hs, incoming, |hs|)
  }

  function Remove<T>(xs: seq<T>, k: nat): seq<T>
    requires k < |xs|
  {
    xs[..k] + xs[k + 1..]
  }

  function GrantUnit(s: State, priority: nat): State {
    s.(holders := s.holders + [Holder(priority, |s.guards|)], guards := s.guards + [Guard(false, false)])
  }

  function Evict(s: State, k: nat): State
    requires k < |s.holders|
  {
    var id := s.holders[k].id;
    s.(holders := Remove(s.holders, k),
       guards := if id < |s.guards| then s.guards[id := s.guards[id].(preempted := true)] else s.guards)
  }

  function Canceled(reqs: seq<Request>): set<nat> {
    set i | 0 <= i < |reqs| && reqs[i].canceled
  }

  function ReleaseUnit(s: State): State {
    var (q, next) := Release(s.q, Canceled(s.reqs));
    if next.Some? && next.value < |s.reqs|
    then s.(q := q, reqs := s.reqs[next.value := s.reqs[next.value].(granted := true)])
    else s.(q := q)
  }

  function HolderIndex(hs: seq<Holder>, id: nat): (r: Option<nat>)
    ensures r.Some? ==> r.value < |hs| && hs[r.value].id == id
    ensures r.None? ==> forall k :: 0 <= k < |hs| ==> hs[k].id != id
  {
    if hs == [] then None
    else if hs[0].id == id then Some(0)
    else match HolderIndex(hs[1..], id) case None => None case Some(k) => Some(k + 1)
  }

  /** Request `i` becomes a holder, in place of the victim if there is one. */
  function Take(s: State, i: nat, victim: Option<nat>): State
    requires i < |s.reqs| && (victim.Some? ==> victim.value < |s.holders|)
  {
    var s' := s.(reqs := s.reqs[i := s.reqs[i].(consumed := true)]);
    GrantUnit(if victim.Some? then Evict(s', victim.value) else s', s.reqs[i].priority)
  }

  function ParkRequest(s: State, i: nat): State
    requires i < |s.reqs|
  {
    var r := s.reqs[i];
    if r.registered then s
    else s.(q := Register(s.q, r.priority, i), reqs := s.reqs[i := r.(registered := true)])
  }

  function PollRequest(s: State, i: nat): State
    requires i < |s.reqs|
  {
    var r := s.reqs[i];
    if r.granted then Take(s.(reqs := s.reqs[i := r.(redeemed := true)]), i, None)
    else
      var (q, acquired) := TryAcquire(s.q);
      var victim := Victim(s.holders, r.priority);
      if acquired then Take(s.(q := q), i, None)
      else if victim.Some? then Take(s, i, victim)
      else ParkRequest(s, i)
  }

  function Step(s: State, a: Action): State
    requires Enabled(s, a)
  {
    match a
    case New(owner, priority) =>
      s.(reqs := s.reqs + [Request(owner, priority, false, false, false, false, false, false)])
    case Poll(i) => PollRequest(s, i)
    case DropRequest(i) =>
      var r := s.reqs[i].(dropped := true);
      if r.consumed then s.(reqs := s.reqs[i := r])
      else if r.granted then ReleaseUnit(s.(reqs := s.reqs[i := r.(redeemed := true)]))
      else if r.registered then s.(reqs := s.reqs[i := r.(canceled := true)])
      else s.(reqs := s.reqs[i := r])
    case DropGuard(id) =>
      var s' := s.(guards := s.guards[id := s.guards[id].(dropped := true)]);
      if s.guards[id].preempted then s'
      else match HolderIndex(s.holders, id)
        case None => ReleaseUnit(s')
        case Some(k) => ReleaseUnit(s'.(holders := Remove(s'.holders, k)))
  }

  /** The request that a release hands the unit to. */
  function Released(s: State): Option<nat> {
    Release(s.q, Canceled(s.reqs)).1
  }

  /** The request that a step hands a unit to, if any: its owner is woken. */
  function Woken(s: State, a: Action): Option<nat>
    requires Enabled(s, a)
  {
    match a
    case New(_, _) => None
    case Poll(_) => None
    case DropRequest(i) =>
      if !s.reqs[i].consumed && s.reqs[i].granted then Released(s) else None
    case DropGuard(id) => if s.guards[id].preempted then None else Released(s)
  }

  /** The processes woken when a unit is handed to `next`. */
  function Wakes(reqs: seq<Request>, next: Option<nat>): seq<nat> {
    if next.Some? && next.value < |reqs| then [reqs[next.value].owner] else []
  }

  lemma WakesNobody(reqs: seq<Request>)
    ensures Wakes(reqs, None) == []
  {
  }

  // ----- The victim -----

  /** The victim has the worst priority among the holders, strictly worse than the incoming
      one, and is the latest of those; there is none exactly when the incoming request outranks
      nobody. */
  lemma {:induction false} VictimIsLatestWorst(hs: seq<Holder>, incoming: nat, n: nat)
    requires n <= |hs|
    ensures var v := VictimAmong(hs, incoming, n);
            && (v.None? <==> forall j :: 0 <= j < n ==> hs[j].priority <= incoming)
            && (v.Some? ==>
                  && hs[v.value].priority > incoming
                  && (forall j :: 0 <= j < n ==> hs[j].priority <= hs[v.value].priority)
                  && (forall j :: v.value < j < n ==> hs[j].priority < hs[v.value].priority))
  {
    if n != 0 {
      VictimIsLatestWorst(hs, incoming, n - 1);
    }
  }

  // ----- What a poll does -----

  /** A request that was handed a unit, or finds one free, is added behind the holders with its own
      priority; nobody else's entry, guard or request changes. */
  lemma PollTakesUnit(s: State, i: nat)
    requires Enabled(s, Poll(i)) && (s.reqs[i].granted || s.q.inUse < s.q.capacity)
    ensures var s' := Step(s, Poll(i)); var r := s.reqs[i];
            && s'.holders == s.holders + [Holder(r.priority, |s.guards|)]
            && s'.guards == s.guards + [Guard(false, false)]
            && s'.reqs == s.reqs[i := r.(consumed := true, redeemed := r.redeemed || r.granted)]
            && s'.q == s.q.(inUse := if r.granted then s.q.inUse else s.q.inUse + 1)
  {
  }

  /** In a full pool a request that outranks some holder evicts the one with the worst priority, the
      latest of those: that entry goes and its guard alone is marked, and the request is added behind
      the holders with its own priority. No unit is taken or freed. */
  lemma PollEvictsWorst(s: State, i: nat) returns (k: nat)
    requires HoldersInv(s) && Enabled(s, Poll(i)) && !s.reqs[i].granted && s.q.inUse >= s.q.capacity
    requires exists j :: 0 <= j < |s.holders| && s.holders[j].priority > s.reqs[i].priority
    ensures k < |s.holders| && s.holders[k].priority > s.reqs[i].priority
    ensures forall j :: 0 <= j < |s.holders| ==> s.holders[j].priority <= s.holders[k].priority
    ensures forall j :: k < j < |s.holders| ==> s.holders[j].priority < s.holders[k].priority
    ensures var s' := Step(s, Poll(i)); var r, id := s.reqs[i], s.holders[k].id;
            && s'.holders == s.holders[..k] + s.holders[k + 1..] + [Holder(r.priority, |s.guards|)]
            && id < |s.guards| && s'.guards == s.guards[id := s.guards[id].(preempted := true)] + [Guard(false, false)]
            && s'.reqs == s.reqs[i := r.(consumed := true)] && s'.q == s.q
  {
    hide VictimAmong, HoldersInv;
    VictimIsLatestWorst(s.holders, s.reqs[i].priority, |s.holders|);
    k := Victim(s.holders, s.reqs[i].priority).value;
    HolderHasGuard(s, k);
  }

  lemma HolderHasGuard(s: State, k: nat)
    requires HoldersInv(s) && k < |s.holders|
    ensures s.holders[k].id < |s.guards|
  {
  }

  /** In a full pool a request that outranks nobody parks, at its priority and behind its equals,
      unless it is parked already. */
  lemma PollParksOnce(s: State, i: nat) returns (k: nat)
    requires HeapInv(s) && Enabled(s, Poll(i)) && !s.reqs[i].granted && s.q.inUse >= s.q.capacity
    requires forall j :: 0 <= j < |s.holders| ==> s.holders[j].priority <= s.reqs[i].priority
    ensures var s' := Step(s, Poll(i)); var r, h := s.reqs[i], s.q.heap;
            if r.registered then s' == s
            else
              && k <= |h| && s'.q.heap == h[..k] + [Entry(r.priority, s.q.nextTicket, i)] + h[k..]
              && (forall j :: 0 <= j < k ==> h[j].key <= r.priority)
              && (forall j :: k <= j < |h| ==> h[j].key > r.priority)
              && s' == s.(q := s.q.(heap := s'.q.heap, nextTicket := s.q.nextTicket + 1),
                          reqs := s.reqs[i := r.(registered := true)])
  {
    VictimIsLatestWorst(s.holders, s.reqs[i].priority, |s.holders|);
    k := 0;
    if !s.reqs[i].registered {
      k := InsertPosition(s.q.heap, s.q.nextTicket, s.reqs[i].priority, i);
    }
  }

  // ----- Exact accounting -----

  /** Grants not yet turned into a holder or passed on by dropping. */
  ghost function Outstanding(s: State): set<nat> {
    set i | 0 <= i < |s.reqs| && s.reqs[i].granted && !s.reqs[i].redeemed
  }

  ghost predicate FlagsInv(s: State) {
    forall i :: 0 <= i < |s.reqs| ==>
      var r := s.reqs[i];
      && (r.granted ==> r.registered)
      && (r.redeemed ==> r.granted && (r.consumed || r.dropped))
      && (r.canceled ==> r.registered && r.dropped && !r.granted && !r.consumed)
      && (r.registered && !r.granted ==> Parked(s.q.heap, i) || r.canceled)
      && (r.registered && !r.granted && r.dropped ==> r.canceled || r.consumed)
      && (r.granted && !r.redeemed && r.dropped ==> r.consumed)
  }

  ghost predicate HeapInv(s: State) {
    && WellFormed(s.q.heap, s.q.nextTicket)
    && forall k :: 0 <= k < |s.q.heap| ==>
         var e := s.q.heap[k];
         && e.req < |s.reqs|
         && s.reqs[e.req].priority == e.key
         && s.reqs[e.req].registered && !s.reqs[e.req].granted
  }

  /** A holder entry stands for exactly the guards neither preempted nor dropped. */
  ghost predicate HoldersInv(s: State) {
    && (forall i, j :: 0 <= i < j < |s.holders| ==> s.holders[i].id != s.holders[j].id)
    && (forall k :: 0 <= k < |s.holders| ==>
          && s.holders[k].id < |s.guards|
          && !s.guards[s.holders[k].id].preempted && !s.guards[s.holders[k].id].dropped)
    && (forall id :: 0 <= id < |s.guards| && !s.guards[id].preempted && !s.guards[id].dropped ==>
          Held(s.holders, id))
  }

  ghost predicate Held(hs: seq<Holder>, id: nat) {
    exists k :: 0 <= k < |hs| && hs[k].id == id
  }

  ghost predicate UnitsInv(s: State, spare: int) {
    && s.q.inUse == |s.holders| + |Outstanding(s)| + spare
    && s.q.inUse <= s.q.capacity
    && (s.q.heap != [] ==> s.q.inUse == s.q.capacity)
  }

  ghost predicate Inv(s: State) {
    FlagsInv(s) && HeapInv(s) && HoldersInv(s) && UnitsInv(s, 0)
  }

  // ----- Releasing -----

  lemma ReleaseCases(s: State) returns (k: nat)
    requires FlagsInv(s) && HeapInv(s)
    ensures k <= |s.q.heap|
    ensures forall i :: 0 <= i < k ==> s.q.heap[i].req in Canceled(s.reqs)
    ensures k == |s.q.heap| ==>
              ReleaseUnit(s) == s.(q := s.q.(heap := [], inUse := s.q.inUse - 1))
    ensures k < |s.q.heap| ==>
              var next := s.q.heap[k].req;
              && next !in Canceled(s.reqs)
              && ReleaseUnit(s) == s.(q := s.q.(heap := s.q.heap[k + 1..]),
                                      reqs := s.reqs[next := s.reqs[next].(granted := true)])
  {
    k := SkipDeadSuffix(s.q.heap, Canceled(s.reqs));
    if k < |s.q.heap| {
      assert s.q.heap[k..][1..] == s.q.heap[k + 1..];
    }
  }

  /** A released unit goes to the live entry with the best priority, the earliest of those, and to
      nobody else; it is freed exactly when no entry is live. */
  lemma ReleaseServesBest(s: State) returns (k: nat)
    requires FlagsInv(s) && HeapInv(s)
    ensures k <= |s.q.heap|
    ensures var h, s' := s.q.heap, ReleaseUnit(s);
            if k == |h| then
              && (forall j :: 0 <= j < |h| ==> s.reqs[h[j].req].canceled)
              && s'.q.inUse == s.q.inUse - 1 && s'.reqs == s.reqs
            else
              && !s.reqs[h[k].req].canceled
              && (forall j :: 0 <= j < |h| && j != k && !s.reqs[h[j].req].canceled ==>
                    h[k].key < h[j].key || (h[k].key == h[j].key && h[k].ticket < h[j].ticket))
              && s'.q.inUse == s.q.inUse && s'.reqs == s.reqs[h[k].req := s.reqs[h[k].req].(granted := true)]
  {
    k := ReleaseCases(s);
    hide ReleaseUnit, FlagsInv;
    forall j | k < j < |s.q.heap| ensures Before(s.q.heap[k], s.q.heap[j]) {
    }
  }

  lemma ReleaseKeepsHeap(s: State)
    requires FlagsInv(s) && HeapInv(s)
    ensures HeapInv(ReleaseUnit(s))
  {
    var k := ReleaseCases(s);
    if k < |s.q.heap| {
      SuffixWellFormed(s.q.heap, k + 1, s.q.nextTicket);
      var h' := s.q.heap[k + 1..];
      forall j | 0 <= j < |h'| ensures h'[j] == s.q.heap[j + k + 1] && h'[j].req != s.q.heap[k].req {
      }
    }
  }

  lemma ReleaseKeepsFlags(s: State)
    requires FlagsInv(s) && HeapInv(s)
    ensures FlagsInv(ReleaseUnit(s))
  {
    var k := ReleaseCases(s);
    var s' := ReleaseUnit(s);
    forall i | 0 <= i < |s.reqs| && Parked(s.q.heap, i) && !s'.reqs[i].granted && !s.reqs[i].canceled
      ensures Parked(s'.q.heap, i)
    {
      var j :| 0 <= j < |s.q.heap| && s.q.heap[j].req == i;
      assert j > k;
      assert s'.q.heap[j - k - 1] == s.q.heap[j];
    }
  }

  lemma ReleaseKeepsInv(s: State)
    requires FlagsInv(s) && HeapInv(s) && HoldersInv(s) && UnitsInv(s, 1)
    ensures Inv(ReleaseUnit(s))
  {
    var k := ReleaseCases(s);
    var s' := ReleaseUnit(s);
    ReleaseKeepsHeap(s);
    ReleaseKeepsFlags(s);
    if k < |s.q.heap| {
      var next := s.q.heap[k].req;
      assert next !in Outstanding(s) && Outstanding(s') == Outstanding(s) + {next};
    } else {
      assert Outstanding(s') == Outstanding(s);
    }
  }

  // ----- Each action keeps the accounting -----

  lemma NewKeepsInv(s: State, a: Action)
    requires Inv(s) && a.New?
    ensures Inv(Step(s, a))
  {
    assert Outstanding(Step(s, a)) == Outstanding(s);
  }

  /** Turning a unit already counted into a holder. */
  lemma GrantKeepsInv(s: State, priority: nat)
    requires FlagsInv(s) && HeapInv(s) && HoldersInv(s) && UnitsInv(s, 1)
    ensures Inv(GrantUnit(s, priority))
  {
    var s' := GrantUnit(s, priority);
    assert Outstanding(s') == Outstanding(s);
    assert s'.holders[|s.holders|].id == |s.guards|;
    forall id | 0 <= id < |s'.guards| && !s'.guards[id].preempted && !s'.guards[id].dropped
      ensures Held(s'.holders, id)
    {
      if id < |s.guards| {
        var k :| 0 <= k < |s.holders| && s.holders[k].id == id;
        assert s'.holders[k].id == id;
      }
    }
  }

  /** Taking a holder entry away, once its guard is marked preempted or dropped. */
  lemma RemoveHolderKeepsInv(s: State, k: nat, g: Guard)
    requires HoldersInv(s) && k < |s.holders| && (g.preempted || g.dropped)
    ensures HoldersInv(s.(holders := Remove(s.holders, k), guards := s.guards[s.holders[k].id := g]))
  {
    var id0 := s.holders[k].id;
    var r := Remove(s.holders, k);
    forall id | 0 <= id < |s.guards| && id != id0 && Held(s.holders, id) ensures Held(r, id) {
      var j :| 0 <= j < |s.holders| && s.holders[j].id == id;
      assert s.holders[j] in r;
    }
  }

  lemma PollGrantedKeepsInv(s: State, i: nat)
    requires Inv(s) && Enabled(s, Poll(i)) && s.reqs[i].granted
    ensures Inv(Step(s, Poll(i)))
  {
    var mid := s.(reqs := s.reqs[i := s.reqs[i].(consumed := true, redeemed := true)]);
    assert i in Outstanding(s) && Outstanding(mid) == Outstanding(s) - {i};
    assert Step(s, Poll(i)) == GrantUnit(mid, s.reqs[i].priority);
    GrantKeepsInv(mid, s.reqs[i].priority);
  }

  lemma PollFreeKeepsInv(s: State, i: nat)
    requires Inv(s) && Enabled(s, Poll(i)) && !s.reqs[i].granted && s.q.inUse < s.q.capacity
    ensures Inv(Step(s, Poll(i)))
  {
    assert s.q.heap == [];
    var mid := s.(q := TryAcquire(s.q).0, reqs := s.reqs[i := s.reqs[i].(consumed := true)]);
    assert Outstanding(mid) == Outstanding(s);
    GrantKeepsInv(mid, s.reqs[i].priority);
  }

  lemma PollPreemptsKeepsInv(s: State, i: nat)
    requires Inv(s) && Enabled(s, Poll(i)) && !s.reqs[i].granted && s.q.inUse == s.q.capacity
    requires Victim(s.holders, s.reqs[i].priority).Some?
    ensures Inv(Step(s, Poll(i)))
  {
    var k := Victim(s.holders, s.reqs[i].priority).value;
    var id := s.holders[k].id;
    var marked := s.(reqs := s.reqs[i := s.reqs[i].(consumed := true)]);
    var mid := Evict(marked, k);
    RemoveHolderKeepsInv(marked, k, s.guards[id].(preempted := true));
    assert Outstanding(mid) == Outstanding(s);
    GrantKeepsInv(mid, s.reqs[i].priority);
  }

  lemma PollParksKeepsInv(s: State, i: nat)
    requires Inv(s) && Enabled(s, Poll(i)) && !s.reqs[i].granted && s.q.inUse == s.q.capacity
    requires Victim(s.holders, s.reqs[i].priority).None? && !s.reqs[i].registered
    ensures Inv(Step(s, Poll(i)))
  {
    var s' := Step(s, Poll(i));
    var h, h' := s.q.heap, s'.q.heap;
    var e := Entry(s.reqs[i].priority, s.q.nextTicket, i);
    assert Outstanding(s') == Outstanding(s);
    InsertWellFormed(h, s.q.nextTicket, e.key, i);
    InsertElements(h, e);
    forall k | 0 <= k < |h'| ensures h'[k] == e || h'[k] in h {
      assert h'[k] in h';
    }
    forall j | 0 <= j < |s.reqs| && (Parked(h, j) || j == i) ensures Parked(h', j) {
      InsertKeepsParked(h, e, j);
    }
  }

  lemma PollKeepsInv(s: State, i: nat)
    requires Inv(s) && Enabled(s, Poll(i))
    ensures Inv(Step(s, Poll(i)))
  {
    if s.reqs[i].granted {
      PollGrantedKeepsInv(s, i);
    } else if s.q.inUse < s.q.capacity {
      PollFreeKeepsInv(s, i);
    } else if Victim(s.holders, s.reqs[i].priority).Some? {
      PollPreemptsKeepsInv(s, i);
    } else if !s.reqs[i].registered {
      PollParksKeepsInv(s, i);
    }
  }

  lemma SpareUnitCounted(s: State)
    requires UnitsInv(s, 1)
    ensures s.q.inUse > 0
  {
  }

  lemma UnpickedGrant(s: State, i: nat)
    requires Inv(s) && Enabled(s, DropRequest(i)) && s.reqs[i].granted && !s.reqs[i].consumed
    ensures var mid := s.(reqs := s.reqs[i := s.reqs[i].(dropped := true, redeemed := true)]);
            FlagsInv(mid) && HeapInv(mid) && HoldersInv(mid) && UnitsInv(mid, 1)
  {
    var mid := s.(reqs := s.reqs[i := s.reqs[i].(dropped := true, redeemed := true)]);
    assert i in Outstanding(s) && Outstanding(mid) == Outstanding(s) - {i};
  }

  /** A grant that was not picked up goes to whom a release hands it, and otherwise a dropped request
      only changes its own flags. */
  lemma DropRequestIs(s: State, i: nat)
    requires Enabled(s, DropRequest(i))
    ensures var r := s.reqs[i]; var s' := Step(s, DropRequest(i)); var woken := Woken(s, DropRequest(i));
            if !r.consumed && r.granted then
              var mid := s.(reqs := s.reqs[i := r.(dropped := true, redeemed := true)]);
              && s' == ReleaseUnit(mid) && woken == Released(mid)
              && Wakes(mid.reqs, woken) == Wakes(s.reqs, woken)
            else
              var canceled := r.canceled || (!r.consumed && r.registered);
              && s' == s.(reqs := s.reqs[i := r.(dropped := true, canceled := canceled)])
              && Wakes(s.reqs, woken) == []
  {
    var mid := s.(reqs := s.reqs[i := s.reqs[i].(dropped := true, redeemed := true)]);
    assert Canceled(mid.reqs) == Canceled(s.reqs);
  }

  lemma DropRequestKeepsInv(s: State, i: nat)
    requires Inv(s) && Enabled(s, DropRequest(i))
    ensures Inv(Step(s, DropRequest(i)))
  {
    var r := s.reqs[i];
    if !r.consumed && r.granted {
      UnpickedGrant(s, i);
      ReleaseKeepsInv(s.(reqs := s.reqs[i := r.(dropped := true, redeemed := true)]));
    } else {
      assert Outstanding(Step(s, DropRequest(i))) == Outstanding(s);
    }
  }

  /** A guard that was not preempted still has its holder entry. */
  lemma LostGuard(s: State, id: nat)
    requires Inv(s) && Enabled(s, DropGuard(id)) && !s.guards[id].preempted
    ensures HolderIndex(s.holders, id).Some?
    ensures var mid := s.(holders := Remove(s.holders, HolderIndex(s.holders, id).value),
                          guards := s.guards[id := s.guards[id].(dropped := true)]);
            FlagsInv(mid) && HeapInv(mid) && HoldersInv(mid) && UnitsInv(mid, 1)
  {
    var g := s.guards[id].(dropped := true);
    assert Held(s.holders, id);
    var k := HolderIndex(s.holders, id).value;
    RemoveHolderKeepsInv(s, k, g);
    assert Outstanding(s.(holders := Remove(s.holders, k), guards := s.guards[id := g])) == Outstanding(s);
  }

  /** A guard that was not preempted loses its entry and its unit goes to whom a release hands it. */
  lemma DropGuardIs(s: State, id: nat)
    requires Inv(s) && Enabled(s, DropGuard(id)) && !s.guards[id].preempted
    ensures HolderIndex(s.holders, id).Some?
    ensures var mid := s.(holders := Remove(s.holders, HolderIndex(s.holders, id).value),
                          guards := s.guards[id := s.guards[id].(dropped := true)]);
            && Step(s, DropGuard(id)) == ReleaseUnit(mid)
            && Woken(s, DropGuard(id)) == Released(mid)
  {
    assert Held(s.holders, id);
  }

  lemma DropGuardKeepsInv(s: State, id: nat)
    requires Inv(s) && Enabled(s, DropGuard(id))
    ensures Inv(Step(s, DropGuard(id)))
  {
    if s.guards[id].preempted {
      assert Outstanding(Step(s, DropGuard(id))) == Outstanding(s);
    } else {
      LostGuard(s, id);
      ReleaseKeepsInv(s.(holders := Remove(s.holders, HolderIndex(s.holders, id).value),
                         guards := s.guards[id := s.guards[id].(dropped := true)]));
    }
  }

  lemma StepKeepsInv(s: State, a: Action)
    requires Inv(s) && Enabled(s, a)
    ensures Inv(Step(s, a))
  {
    match a
    case New(_, _) => NewKeepsInv(s, a);
    case Poll(i) => PollKeepsInv(s, i);
    case DropRequest(i) => DropRequestKeepsInv(s, i);
    case DropGuard(id) => DropGuardKeepsInv(s, id);
  }
}
