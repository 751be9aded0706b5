/** When a preemptive pool keeps its units and its ranking, over whole runs. */
module PreemptionLaws {
  import opened Options
  import opened WaitQueues
  import opened Preemption

  ghost predicate Alive(s: State, i: nat)
    requires i < |s.reqs|
  {
    !s.reqs[i].consumed && !s.reqs[i].dropped
  }

  ghost predicate LiveAt(s: State, k: int) {
    0 <= k < |s.q.heap| && s.q.heap[k].req !in Canceled(s.reqs)
  }

  /** Every outstanding grant, and every entry that can still be granted, has a request alive to
      use the unit. */
  ghost predicate Owned(s: State) {
    && (forall i :: i in Outstanding(s) ==> Alive(s, i))
    && (forall k :: LiveAt(s, k) ==> s.q.heap[k].req < |s.reqs| && Alive(s, s.q.heap[k].req))
  }

  /** A request that is already parked is polled again and finds a victim. */
  predicate Repreempts(s: State, a: Action) {
    && a.Poll? && a.i < |s.reqs|
    && s.reqs[a.i].registered && !s.reqs[a.i].granted
    && Victim(s.holders, s.reqs[a.i].priority).Some?
  }

  /** Every unit handed over has somebody alive to use it. */
  ghost predicate GrantsOwned(s: State) {
    forall i :: i in Outstanding(s) ==> Alive(s, i)
  }

  /** The first live entry, which a released unit goes to, is one that a request left behind when it
      preempted on a re-poll. */
  ghost predicate LeastIsSpent(s: State) {
    exists k :: LeastLive(s, k) && s.reqs[s.q.heap[k].req].consumed
  }

  ghost predicate LeastLive(s: State, k: int) {
    LiveAt(s, k) && s.q.heap[k].req < |s.reqs| && forall j :: 0 <= j < k ==> !LiveAt(s, j)
  }

  /** A guard that was not preempted, or a grant not picked up, is dropped while that is so. */
  ghost predicate ReleasesToSpent(s: State, a: Action)
    requires Enabled(s, a)
  {
    && LeastIsSpent(s)
    && match a
       case DropGuard(id) => !s.guards[id].preempted
       case DropRequest(i) => s.reqs[i].granted && !s.reqs[i].consumed
       case _ => false
  }

  /** No live parked request outranks a holder or a request that was granted a unit. */
  ghost predicate Ranked(s: State) {
    forall k :: LiveAt(s, k) ==>
      && (forall h :: h in s.holders ==> h.priority <= s.q.heap[k].key)
      && (forall i :: i in Outstanding(s) ==> s.reqs[i].priority <= s.q.heap[k].key)
  }

  /** A request parks while a strictly worse-priority grant is not picked up yet. */
  ghost predicate ParksOverWorseGrant(s: State, a: Action) {
    && a.Poll? && a.i < |s.reqs|
    && !s.reqs[a.i].registered && !s.reqs[a.i].granted
    && s.q.inUse >= s.q.capacity
    && Victim(s.holders, s.reqs[a.i].priority).None?
    && exists j :: j in Outstanding(s) && s.reqs[j].priority > s.reqs[a.i].priority
  }

  // ----- Ownership, one step -----

  lemma ReleaseKeepsOwned(s: State)
    requires FlagsInv(s) && HeapInv(s) && Owned(s)
    ensures Owned(ReleaseUnit(s))
  {
    var k := ReleaseCases(s);
    var s' := ReleaseUnit(s);
    assert forall i :: 0 <= i < |s.reqs| ==> (Alive(s', i) <==> Alive(s, i));
    assert Canceled(s'.reqs) == Canceled(s.reqs);
    if k < |s.q.heap| {
      assert LiveAt(s, k);
      assert Outstanding(s') <= Outstanding(s) + {s.q.heap[k].req};
      forall j | LiveAt(s', j) ensures Alive(s', s'.q.heap[j].req) {
        assert s'.q.heap[j] == s.q.heap[j + k + 1];
        assert LiveAt(s, j + k + 1);
      }
    } else {
      assert Outstanding(s') == Outstanding(s);
    }
  }

  lemma PollReadyOwned(s: State, i: nat)
    requires Inv(s) && Owned(s) && Enabled(s, Poll(i))
    requires s.reqs[i].granted || s.q.inUse < s.q.capacity || Victim(s.holders, s.reqs[i].priority).Some?
    ensures Owned(Step(s, Poll(i))) <==> !Repreempts(s, Poll(i))
  {
    var s' := Step(s, Poll(i));
    assert Canceled(s'.reqs) == Canceled(s.reqs);
    assert Outstanding(s') == Outstanding(s) - {i};
    assert s'.q.heap == s.q.heap;
    if s.reqs[i].registered && !s.reqs[i].granted {
      assert Parked(s.q.heap, i);
      var k :| 0 <= k < |s.q.heap| && s.q.heap[k].req == i;
      assert LiveAt(s', k) && !Alive(s', i);
    } else {
      forall k | LiveAt(s', k) ensures Alive(s', s'.q.heap[k].req) {
        assert LiveAt(s, k);
      }
    }
  }

  lemma PollParksOwned(s: State, i: nat)
    requires Inv(s) && Owned(s) && Enabled(s, Poll(i)) && !s.reqs[i].granted
    requires s.q.inUse == s.q.capacity && Victim(s.holders, s.reqs[i].priority).None?
    ensures Owned(Step(s, Poll(i)))
  {
    if !s.reqs[i].registered {
      var s' := Step(s, Poll(i));
      var e := Entry(s.reqs[i].priority, s.q.nextTicket, i);
      InsertElements(s.q.heap, e);
      assert forall j :: 0 <= j < |s.reqs| ==> (Alive(s', j) <==> Alive(s, j));
      assert Outstanding(s') == Outstanding(s) && Canceled(s'.reqs) == Canceled(s.reqs);
      forall k | LiveAt(s', k)
        ensures s'.q.heap[k].req < |s'.reqs| && Alive(s', s'.q.heap[k].req)
      {
        assert s'.q.heap[k] in s'.q.heap;
        if s'.q.heap[k] != e {
          var j :| 0 <= j < |s.q.heap| && s.q.heap[j] == s'.q.heap[k];
          assert LiveAt(s, j);
        }
      }
    }
  }

  lemma DropGuardKeepsOwned(s: State, id: nat)
    requires Inv(s) && Owned(s) && Enabled(s, DropGuard(id))
    ensures Owned(Step(s, DropGuard(id)))
  {
    var k := HolderIndex(s.holders, id);
    var s1 := s.(guards := s.guards[id := s.guards[id].(dropped := true)]);
    var s2 := if k.Some? then s1.(holders := Remove(s1.holders, k.value)) else s1;
    assert Outstanding(s1) == Outstanding(s) && Outstanding(s2) == Outstanding(s);
    ReleaseKeepsOwned(s2);
  }

  lemma DropRequestKeepsOwned(s: State, i: nat)
    requires Inv(s) && Owned(s) && Enabled(s, DropRequest(i))
    ensures Owned(Step(s, DropRequest(i)))
  {
    hide ReleaseUnit, UnitsInv, HoldersInv;
    var r := s.reqs[i];
    DropRequestIs(s, i);
    hide Step;
    if !r.consumed && r.granted {
      var mid := s.(reqs := s.reqs[i := r.(dropped := true, redeemed := true)]);
      assert Outstanding(mid) == Outstanding(s) - {i};
      ReleaseKeepsOwned(mid);
    } else {
      var s' := Step(s, DropRequest(i));
      assert Outstanding(s') == Outstanding(s);
      forall k | LiveAt(s', k) ensures Alive(s', s'.q.heap[k].req) {
        assert LiveAt(s, k);
      }
    }
  }

  lemma StepOwned(s: State, a: Action)
    requires Inv(s) && Owned(s) && Enabled(s, a)
    ensures Owned(Step(s, a)) <==> !Repreempts(s, a)
  {
    match a
    case New(_, _) =>
      var s' := Step(s, a);
      assert Outstanding(s') == Outstanding(s);
      assert forall j :: LiveAt(s', j) ==> LiveAt(s, j);
    case Poll(i) =>
      if s.reqs[i].granted || s.q.inUse < s.q.capacity || Victim(s.holders, s.reqs[i].priority).Some? {
        PollReadyOwned(s, i);
      } else {
        PollParksOwned(s, i);
      }
    case DropRequest(i) => DropRequestKeepsOwned(s, i);
    case DropGuard(id) => DropGuardKeepsOwned(s, id);
  }

  // ----- Grants, one step -----

  lemma ReleaseOwnsGrant(s: State)
    requires FlagsInv(s) && HeapInv(s) && GrantsOwned(s)
    ensures GrantsOwned(ReleaseUnit(s)) <==> !LeastIsSpent(s)
  {
    var k := ReleaseCases(s);
    var s' := ReleaseUnit(s);
    assert forall j :: 0 <= j < k ==> !LiveAt(s, j);
    assert forall i :: 0 <= i < |s.reqs| ==> (Alive(s', i) <==> Alive(s, i));
    if k < |s.q.heap| {
      var next := s.q.heap[k].req;
      assert LeastLive(s, k);
      assert forall j :: LeastLive(s, j) ==> j == k;
      assert Outstanding(s') == Outstanding(s) + {next};
      assert Alive(s, next) <==> !s.reqs[next].consumed;
    } else {
      assert Outstanding(s') == Outstanding(s);
    }
  }

  lemma LeastFrame(s: State, s': State)
    requires s'.q.heap == s.q.heap && |s'.reqs| == |s.reqs|
    requires forall i :: 0 <= i < |s.reqs| ==>
               s'.reqs[i].consumed == s.reqs[i].consumed && s'.reqs[i].canceled == s.reqs[i].canceled
    ensures LeastIsSpent(s') <==> LeastIsSpent(s)
  {
    assert Canceled(s'.reqs) == Canceled(s.reqs);
    assert forall k :: LiveAt(s', k) <==> LiveAt(s, k);
    assert forall k :: LeastLive(s', k) <==> LeastLive(s, k);
  }

  lemma DropGuardOwnsGrants(s: State, id: nat)
    requires Inv(s) && GrantsOwned(s) && Enabled(s, DropGuard(id))
    ensures GrantsOwned(Step(s, DropGuard(id))) <==> !ReleasesToSpent(s, DropGuard(id))
  {
    hide LeastIsSpent, ReleaseUnit;
    if s.guards[id].preempted {
      assert Outstanding(Step(s, DropGuard(id))) == Outstanding(s);
    } else {
      LostGuard(s, id);
      var mid := s.(holders := Remove(s.holders, HolderIndex(s.holders, id).value),
                    guards := s.guards[id := s.guards[id].(dropped := true)]);
      assert Outstanding(mid) == Outstanding(s);
      LeastFrame(s, mid);
      ReleaseOwnsGrant(mid);
    }
  }

  lemma DropRequestOwnsGrants(s: State, i: nat)
    requires Inv(s) && GrantsOwned(s) && Enabled(s, DropRequest(i))
    ensures GrantsOwned(Step(s, DropRequest(i))) <==> !ReleasesToSpent(s, DropRequest(i))
  {
    hide LeastIsSpent, ReleaseUnit, Inv, FlagsInv, HeapInv;
    var r := s.reqs[i];
    DropRequestIs(s, i);
    hide Step;
    if !r.consumed && r.granted {
      UnpickedGrant(s, i);
      var mid := s.(reqs := s.reqs[i := r.(dropped := true, redeemed := true)]);
      assert Outstanding(mid) == Outstanding(s) - {i};
      LeastFrame(s, mid);
      ReleaseOwnsGrant(mid);
    } else {
      assert Outstanding(Step(s, DropRequest(i))) == Outstanding(s);
    }
  }

  /** A step hands a unit to a request that is gone exactly when it releases one while the first
      live entry is a spent request's. */
  lemma StepOwnsGrants(s: State, a: Action)
    requires Inv(s) && GrantsOwned(s) && Enabled(s, a)
    ensures GrantsOwned(Step(s, a)) <==> !ReleasesToSpent(s, a)
  {
    match a
    case New(_, _) => assert Outstanding(Step(s, a)) == Outstanding(s);
    case Poll(i) => assert Outstanding(Step(s, a)) == Outstanding(s) - {i};
    case DropRequest(i) => DropRequestOwnsGrants(s, i);
    case DropGuard(id) => DropGuardOwnsGrants(s, id);
  }

  // ----- Ranking, one step -----

  lemma ReleaseKeepsRanked(s: State)
    requires FlagsInv(s) && HeapInv(s) && Ranked(s)
    ensures Ranked(ReleaseUnit(s))
  {
    var k := ReleaseCases(s);
    var s' := ReleaseUnit(s);
    if k < |s.q.heap| {
      assert Canceled(s'.reqs) == Canceled(s.reqs);
      assert Outstanding(s') <= Outstanding(s) + {s.q.heap[k].req};
      forall j | LiveAt(s', j)
        ensures forall h :: h in s'.holders ==> h.priority <= s'.q.heap[j].key
        ensures forall i :: i in Outstanding(s') ==> s'.reqs[i].priority <= s'.q.heap[j].key
      {
        assert s'.q.heap[j] == s.q.heap[j + k + 1];
        assert LiveAt(s, j + k + 1);
        assert Before(s.q.heap[k], s.q.heap[j + k + 1]);
      }
    }
  }

  /** Fewer waiters, holders and grants are easier to rank. */
  lemma FewerRanked(s: State, s': State)
    requires Ranked(s) && s'.q.heap == s.q.heap && |s'.reqs| >= |s.reqs|
    requires forall i :: 0 <= i < |s.reqs| ==> s'.reqs[i].priority == s.reqs[i].priority
    requires Canceled(s.reqs) <= Canceled(s'.reqs) && Outstanding(s') <= Outstanding(s)
    requires forall h :: h in s'.holders ==> h in s.holders
    ensures Ranked(s')
  {
    assert forall k :: LiveAt(s', k) ==> LiveAt(s, k);
  }

  lemma RemoveMembers(hs: seq<Holder>, k: nat)
    requires k < |hs|
    ensures forall h :: h in Remove(hs, k) ==> h in hs
  {
  }

  /** In a ranked state only a request that was never parked can find a victim. */
  lemma RankedNeverRepreempts(s: State, a: Action)
    requires Inv(s) && Ranked(s) && Enabled(s, a)
    ensures !Repreempts(s, a)
  {
    if a.Poll? && s.reqs[a.i].registered && !s.reqs[a.i].granted {
      var k :| 0 <= k < |s.q.heap| && s.q.heap[k].req == a.i;
      assert LiveAt(s, k);
      assert forall j :: 0 <= j < |s.holders| ==> s.holders[j] in s.holders;
      VictimIsLatestWorst(s.holders, s.reqs[a.i].priority, |s.holders|);
    }
  }

  lemma PollPreemptsRanked(s: State, i: nat)
    requires Inv(s) && Ranked(s) && Enabled(s, Poll(i)) && !s.reqs[i].granted
    requires s.q.inUse == s.q.capacity && Victim(s.holders, s.reqs[i].priority).Some?
    ensures Ranked(Step(s, Poll(i)))
  {
    hide FlagsInv, HeapInv, UnitsInv, HoldersInv;
    var s' := Step(s, Poll(i));
    var v := Victim(s.holders, s.reqs[i].priority).value;
    VictimIsLatestWorst(s.holders, s.reqs[i].priority, |s.holders|);
    RemoveMembers(s.holders, v);
    hide VictimAmong, Remove;
    assert Outstanding(s') == Outstanding(s) && Canceled(s'.reqs) == Canceled(s.reqs);
    forall k | LiveAt(s', k)
      ensures forall h :: h in s'.holders ==> h.priority <= s'.q.heap[k].key
      ensures forall j :: j in Outstanding(s') ==> s'.reqs[j].priority <= s'.q.heap[k].key
    {
      assert LiveAt(s, k);
      assert s.holders[v] in s.holders;
    }
  }

  /** The new entry of a request that parks, and the live entries there were. */
  lemma ParkedEntries(s: State, i: nat)
    requires Inv(s) && Enabled(s, Poll(i)) && !s.reqs[i].granted && !s.reqs[i].registered
    requires s.q.inUse == s.q.capacity && Victim(s.holders, s.reqs[i].priority).None?
    ensures var s' := Step(s, Poll(i)); var e := Entry(s.reqs[i].priority, s.q.nextTicket, i);
            && s'.holders == s.holders && Outstanding(s') == Outstanding(s)
            && (forall j :: 0 <= j < |s.reqs| ==> s'.reqs[j].priority == s.reqs[j].priority)
            && (exists k :: LiveAt(s', k) && s'.q.heap[k] == e)
            && (forall k :: LiveAt(s', k) && s'.q.heap[k] != e ==> exists j :: LiveAt(s, j) && s.q.heap[j] == s'.q.heap[k])
  {
    hide HoldersInv, UnitsInv;
    var s' := Step(s, Poll(i));
    var e := Entry(s.reqs[i].priority, s.q.nextTicket, i);
    InsertElements(s.q.heap, e);
    assert Outstanding(s') == Outstanding(s) && Canceled(s'.reqs) == Canceled(s.reqs);
    assert e in s'.q.heap;
    var at :| 0 <= at < |s'.q.heap| && s'.q.heap[at] == e;
    assert LiveAt(s', at);
    forall k | LiveAt(s', k) && s'.q.heap[k] != e ensures exists j :: LiveAt(s, j) && s.q.heap[j] == s'.q.heap[k] {
      assert s'.q.heap[k] in s'.q.heap;
      var j :| 0 <= j < |s.q.heap| && s.q.heap[j] == s'.q.heap[k];
      assert LiveAt(s, j);
    }
  }

  lemma PollParksRanked(s: State, i: nat)
    requires Inv(s) && Ranked(s) && Enabled(s, Poll(i)) && !s.reqs[i].granted && !s.reqs[i].registered
    requires s.q.inUse == s.q.capacity && Victim(s.holders, s.reqs[i].priority).None?
    ensures Ranked(Step(s, Poll(i))) <==> !ParksOverWorseGrant(s, Poll(i))
  {
    var s' := Step(s, Poll(i));
    ParkedEntries(s, i);
    OutranksNobody(s.holders, s.reqs[i].priority);
    hide Inv, Step, Victim, LiveAt;
    var e := Entry(s.reqs[i].priority, s.q.nextTicket, i);
    var at :| LiveAt(s', at) && s'.q.heap[at] == e;
    if !ParksOverWorseGrant(s, Poll(i)) {
      forall k | LiveAt(s', k)
        ensures forall h :: h in s'.holders ==> h.priority <= s'.q.heap[k].key
        ensures forall j :: j in Outstanding(s') ==> s'.reqs[j].priority <= s'.q.heap[k].key
      {
        if s'.q.heap[k] != e {
          var j :| LiveAt(s, j) && s.q.heap[j] == s'.q.heap[k];
        }
      }
    }
  }

  lemma OutranksNobody(hs: seq<Holder>, incoming: nat)
    requires Victim(hs, incoming).None?
    ensures forall h :: h in hs ==> h.priority <= incoming
  {
    VictimIsLatestWorst(hs, incoming, |hs|);
  }

  lemma DropsKeepRanked(s: State, a: Action)
    requires Inv(s) && Ranked(s) && Enabled(s, a) && (a.DropRequest? || a.DropGuard?)
    ensures Ranked(Step(s, a))
  {
    hide ReleaseUnit, UnitsInv, HoldersInv, Ranked;
    if a.DropGuard? {
      var g := s.guards[a.id].(dropped := true);
      var k := HolderIndex(s.holders, a.id);
      var s1 := s.(guards := s.guards[a.id := g]);
      var s2 := if k.Some? then s1.(holders := Remove(s1.holders, k.value)) else s1;
      assert Outstanding(s1) == Outstanding(s) && Outstanding(s2) == Outstanding(s);
      if k.Some? { RemoveMembers(s.holders, k.value); }
      FewerRanked(s, s1);
      FewerRanked(s, s2);
      ReleaseKeepsRanked(s2);
    } else {
      var r := s.reqs[a.i];
      if !r.consumed && r.granted {
        var mid := s.(reqs := s.reqs[a.i := r.(dropped := true, redeemed := true)]);
        assert Outstanding(mid) == Outstanding(s) - {a.i};
        FewerRanked(s, mid);
        ReleaseKeepsRanked(mid);
      } else {
        assert Outstanding(Step(s, a)) == Outstanding(s);
        FewerRanked(s, Step(s, a));
      }
    }
  }

  lemma StepRanked(s: State, a: Action)
    requires Inv(s) && Ranked(s) && Enabled(s, a)
    ensures Ranked(Step(s, a)) <==> !ParksOverWorseGrant(s, a)
  {
    match a
    case New(_, _) =>
      assert Outstanding(Step(s, a)) == Outstanding(s);
      FewerRanked(s, Step(s, a));
    case Poll(i) =>
      if s.reqs[i].granted {
      } else if s.q.inUse < s.q.capacity {
        assert s.q.heap == [];
      } else if Victim(s.holders, s.reqs[i].priority).Some? {
        PollPreemptsRanked(s, i);
      } else if !s.reqs[i].registered {
        PollParksRanked(s, i);
      }
    case DropRequest(_) => DropsKeepRanked(s, a);
    case DropGuard(_) => DropsKeepRanked(s, a);
  }

  // ----- Whole runs -----

  predicate ValidRun(s: State, acts: seq<Action>)
    decreases |acts|
  {
    acts == [] || (Enabled(s, acts[0]) && ValidRun(Step(s, acts[0]), acts[1..]))
  }

  function Run(s: State, acts: seq<Action>): State
    requires ValidRun(s, acts)
    decreases |acts|
  {
    if acts == [] then s else Run(Step(s, acts[0]), acts[1..])
  }

  ghost predicate OwnedThroughout(s: State, acts: seq<Action>)
    requires ValidRun(s, acts)
    decreases |acts|
  {
    Owned(s) && (acts == [] || OwnedThroughout(Step(s, acts[0]), acts[1..]))
  }

  ghost predicate RankedThroughout(s: State, acts: seq<Action>)
    requires ValidRun(s, acts)
    decreases |acts|
  {
    Ranked(s) && (acts == [] || RankedThroughout(Step(s, acts[0]), acts[1..]))
  }

  ghost predicate SomewhereRepreempts(s: State, acts: seq<Action>)
    requires ValidRun(s, acts)
    decreases |acts|
  {
    acts != [] && (Repreempts(s, acts[0]) || SomewhereRepreempts(Step(s, acts[0]), acts[1..]))
  }

  ghost predicate SomewhereParksOverWorseGrant(s: State, acts: seq<Action>)
    requires ValidRun(s, acts)
    decreases |acts|
  {
    acts != [] && (ParksOverWorseGrant(s, acts[0]) || SomewhereParksOverWorseGrant(Step(s, acts[0]), acts[1..]))
  }

  ghost predicate SomewhereReleasesToSpent(s: State, acts: seq<Action>)
    requires ValidRun(s, acts)
    decreases |acts|
  {
    acts != [] && (ReleasesToSpent(s, acts[0]) || SomewhereReleasesToSpent(Step(s, acts[0]), acts[1..]))
  }

  lemma InitInv(capacity: nat)
    ensures Inv(Init(capacity)) && Owned(Init(capacity)) && Ranked(Init(capacity))
  {
    assert Outstanding(Init(capacity)) == {};
  }

  lemma StepKeepsCapacity(s: State, a: Action)
    requires Enabled(s, a)
    ensures Step(s, a).q.capacity == s.q.capacity
  {
  }

  lemma {:induction false} RunKeepsInv(s: State, acts: seq<Action>)
    requires Inv(s) && ValidRun(s, acts)
    ensures Inv(Run(s, acts)) && Run(s, acts).q.capacity == s.q.capacity
    decreases |acts|
  {
    hide Inv, Step, Enabled;
    if acts != [] {
      StepKeepsInv(s, acts[0]);
      StepKeepsCapacity(s, acts[0]);
      RunKeepsInv(Step(s, acts[0]), acts[1..]);
    }
  }

  lemma {:induction false} OwnedFrom(s: State, acts: seq<Action>)
    requires Inv(s) && Owned(s) && ValidRun(s, acts)
    ensures OwnedThroughout(s, acts) <==> !SomewhereRepreempts(s, acts)
    decreases |acts|
  {
    if acts != [] {
      StepKeepsInv(s, acts[0]);
      StepOwned(s, acts[0]);
      if Owned(Step(s, acts[0])) {
        OwnedFrom(Step(s, acts[0]), acts[1..]);
      }
    }
  }

  lemma {:induction false} RankedFrom(s: State, acts: seq<Action>)
    requires Inv(s) && Ranked(s) && ValidRun(s, acts)
    ensures RankedThroughout(s, acts) <==> !SomewhereParksOverWorseGrant(s, acts)
    ensures RankedThroughout(s, acts) ==> !SomewhereRepreempts(s, acts)
    decreases |acts|
  {
    if acts != [] {
      StepKeepsInv(s, acts[0]);
      StepRanked(s, acts[0]);
      RankedNeverRepreempts(s, acts[0]);
      if Ranked(Step(s, acts[0])) {
        RankedFrom(Step(s, acts[0]), acts[1..]);
      }
    }
  }

  /** Under any order of polls, re-polls, evictions and drops: `inUse` counts the holders and the
      grants not yet redeemed, within the capacity, and the holder list is exactly the guards
      neither preempted nor dropped. */
  lemma ExactAccounting(capacity: nat, acts: seq<Action>)
    requires ValidRun(Init(capacity), acts)
    ensures var s := Run(Init(capacity), acts);
            && s.q.inUse == |s.holders| + |Outstanding(s)| <= capacity
            && forall id :: 0 <= id < |s.guards| ==>
                 (Held(s.holders, id) <==> !s.guards[id].preempted && !s.guards[id].dropped)
  {
    InitInv(capacity);
    RunKeepsInv(Init(capacity), acts);
  }

  /** Grants and live entries all have a request alive in exactly the runs in which no parked request
      preempts on a re-poll. */
  lemma OwnershipLaw(capacity: nat, acts: seq<Action>)
    requires ValidRun(Init(capacity), acts)
    ensures OwnedThroughout(Init(capacity), acts) <==> !SomewhereRepreempts(Init(capacity), acts)
  {
    InitInv(capacity);
    OwnedFrom(Init(capacity), acts);
  }

  /** Nobody parked outranks a holder or a grantee in exactly the runs in which no request parks
      over a worse-priority grant; and in those runs no re-poll preempts, so units stay owned. */
  lemma RankLaw(capacity: nat, acts: seq<Action>)
    requires ValidRun(Init(capacity), acts)
    ensures RankedThroughout(Init(capacity), acts) <==> !SomewhereParksOverWorseGrant(Init(capacity), acts)
    ensures RankedThroughout(Init(capacity), acts) ==> OwnedThroughout(Init(capacity), acts)
  {
    InitInv(capacity);
    RankedFrom(Init(capacity), acts);
    OwnedFrom(Init(capacity), acts);
  }

  /** Once every request and guard is gone, the units still in use are exactly the grants of spent
      requests. */
  lemma DrainedPool(s: State)
    requires Inv(s)
    requires forall i :: 0 <= i < |s.reqs| ==> s.reqs[i].dropped
    requires forall id :: 0 <= id < |s.guards| ==> s.guards[id].dropped
    ensures s.q.inUse == |Outstanding(s)| && forall i :: i in Outstanding(s) ==> s.reqs[i].consumed
    ensures s.q.inUse == 0 <==> GrantsOwned(s)
  {
    assert |s.holders| > 0 ==> s.holders[0].id < |s.guards|;
    if Outstanding(s) != {} {
      var i :| i in Outstanding(s);
      assert !Alive(s, i);
    }
  }

  /** A unit granted to a request that is already gone is never used or freed again. */
  lemma {:induction false} StrayGrantIsForever(s: State, acts: seq<Action>, i: nat)
    requires Inv(s) && ValidRun(s, acts)
    requires i in Outstanding(s) && s.reqs[i].consumed
    ensures i in Outstanding(Run(s, acts)) && Run(s, acts).q.inUse > 0
    decreases |acts|
  {
    if acts == [] {
      assert Outstanding(s) >= {i};
      assert |Outstanding(s) - {i}| + 1 == |Outstanding(s)|;
    } else {
      StepKeepsInv(s, acts[0]);
      StrayStep(s, acts[0], i);
      StrayGrantIsForever(Step(s, acts[0]), acts[1..], i);
    }
  }

  lemma StrayStep(s: State, a: Action, i: nat)
    requires Inv(s) && Enabled(s, a) && i in Outstanding(s) && s.reqs[i].consumed
    ensures i in Outstanding(Step(s, a)) && Step(s, a).reqs[i].consumed
  {
    hide FlagsInv, HoldersInv, UnitsInv, ReleaseUnit, Victim;
    match a
    case New(_, _) =>
    case Poll(j) =>
    case DropRequest(j) =>
      var r := s.reqs[j];
      if !r.consumed && r.granted {
        StrayRelease(s.(reqs := s.reqs[j := r.(dropped := true, redeemed := true)]), i);
      }
    case DropGuard(id) =>
      var s' := s.(guards := s.guards[id := s.guards[id].(dropped := true)]);
      StrayRelease(s', i);
      if HolderIndex(s.holders, id).Some? {
        StrayRelease(s'.(holders := Remove(s'.holders, HolderIndex(s.holders, id).value)), i);
      }
  }

  lemma StrayRelease(s: State, i: nat)
    requires i in Outstanding(s) && s.reqs[i].consumed
    ensures i in Outstanding(ReleaseUnit(s)) && ReleaseUnit(s).reqs[i].consumed
  {
  }

  lemma {:induction false} GrantsOwnedFrom(s: State, acts: seq<Action>)
    requires Inv(s) && GrantsOwned(s) && ValidRun(s, acts)
    ensures GrantsOwned(Run(s, acts)) <==> !SomewhereReleasesToSpent(s, acts)
    decreases |acts|
  {
    hide Inv, GrantsOwned, ReleasesToSpent, Step, Enabled;
    if acts != [] {
      var s' := Step(s, acts[0]);
      StepKeepsInv(s, acts[0]);
      StepOwnsGrants(s, acts[0]);
      if GrantsOwned(s') {
        GrantsOwnedFrom(s', acts[1..]);
      } else {
        NeverOwnedAgain(s', acts[1..]);
      }
    }
  }

  lemma NeverOwnedAgain(s: State, acts: seq<Action>)
    requires Inv(s) && !GrantsOwned(s) && ValidRun(s, acts)
    ensures !GrantsOwned(Run(s, acts))
  {
    var i :| i in Outstanding(s) && !Alive(s, i);
    StrayGrantIsForever(s, acts, i);
    RunKeepsSpent(s, acts, i);
  }

  lemma {:induction false} RunKeepsSpent(s: State, acts: seq<Action>, i: nat)
    requires ValidRun(s, acts) && i < |s.reqs| && s.reqs[i].consumed
    ensures i < |Run(s, acts).reqs| && Run(s, acts).reqs[i].consumed
    decreases |acts|
  {
    if acts != [] {
      RunKeepsSpent(Step(s, acts[0]), acts[1..], i);
    }
  }

  /** After a run every unit handed over has somebody alive to use it if and only if the run released
      no unit while the first live entry was a spent request's; for which it is enough that no parked
      request preempted on a re-poll. */
  lemma GrantLaw(capacity: nat, acts: seq<Action>)
    requires ValidRun(Init(capacity), acts)
    ensures GrantsOwned(Run(Init(capacity), acts)) <==> !SomewhereReleasesToSpent(Init(capacity), acts)
    ensures !SomewhereRepreempts(Init(capacity), acts) ==> GrantsOwned(Run(Init(capacity), acts))
  {
    InitInv(capacity);
    GrantsOwnedFrom(Init(capacity), acts);
    OwnedFrom(Init(capacity), acts);
    if !SomewhereRepreempts(Init(capacity), acts) {
      OwnedAtTheEnd(Init(capacity), acts);
    }
  }

  lemma {:induction false} OwnedAtTheEnd(s: State, acts: seq<Action>)
    requires ValidRun(s, acts) && OwnedThroughout(s, acts)
    ensures Owned(Run(s, acts))
    decreases |acts|
  {
    if acts != [] {
      OwnedAtTheEnd(Step(s, acts[0]), acts[1..]);
    }
  }

  /** A run after which everything has been dropped gives all units back if and only if it released
      none to a spent request. */
  lemma DrainLaw(capacity: nat, acts: seq<Action>)
    requires ValidRun(Init(capacity), acts)
    requires var s := Run(Init(capacity), acts);
             && (forall i :: 0 <= i < |s.reqs| ==> s.reqs[i].dropped)
             && (forall id :: 0 <= id < |s.guards| ==> s.guards[id].dropped)
    ensures Run(Init(capacity), acts).q.inUse == 0 <==> !SomewhereReleasesToSpent(Init(capacity), acts)
  {
    InitInv(capacity);
    RunKeepsInv(Init(capacity), acts);
    DrainedPool(Run(Init(capacity), acts));
    GrantLaw(capacity, acts);
  }

  // ----- A run that loses a unit -----

  lemma {:induction false} Extend(s: State, acts: seq<Action>, a: Action)
    requires ValidRun(s, acts) && Enabled(Run(s, acts), a)
    ensures ValidRun(s, acts + [a]) && Run(s, acts + [a]) == Step(Run(s, acts), a)
    ensures SomewhereRepreempts(s, acts + [a]) <==> SomewhereRepreempts(s, acts) || Repreempts(Run(s, acts), a)
    decreases |acts|
  {
    if acts == [] {
      assert ([] + [a])[1..] == [];
    } else {
      assert (acts + [a])[1..] == acts[1..] + [a];
      Extend(Step(s, acts[0]), acts[1..], a);
    }
  }

  lemma Continue(s: State, acts: seq<Action>, now: State, a: Action) returns (longer: seq<Action>, next: State)
    requires ValidRun(s, acts) && Run(s, acts) == now && Enabled(now, a)
    ensures longer == acts + [a] && ValidRun(s, longer) && next == Run(s, longer) == Step(now, a)
    ensures SomewhereRepreempts(s, longer) <==> SomewhereRepreempts(s, acts) || Repreempts(now, a)
  {
    Extend(s, acts, a);
    longer, next := acts + [a], Step(now, a);
  }

  /** The second request of priority 5 has been granted the only unit and not polled yet. */
  function GrantPending(): State {
    State(Queue(1, 1, 1, []), [], [Guard(false, true)],
          [Request(0, 5, false, true, false, false, false, false),
           Request(1, 5, true, false, false, true, false, false)])
  }

  /** It holds the unit by now, and a third request, of priority 1, has parked meanwhile. */
  function BetterParked(): State {
    State(Queue(1, 1, 2, [Entry(1, 1, 2)]), [Holder(5, 1)], [Guard(false, true), Guard(false, false)],
          [Request(0, 5, false, true, false, false, false, false),
           Request(1, 5, true, true, false, true, false, true),
           Request(2, 1, true, false, false, false, false, false)])
  }

  /** The third request has taken the unit on a re-poll; the entry it parked with is still queued. */
  function Seized(): State {
    State(Queue(1, 1, 2, [Entry(1, 1, 2)]), [Holder(1, 2)],
          [Guard(false, true), Guard(true, false), Guard(false, false)],
          [Request(0, 5, false, true, false, false, false, false),
           Request(1, 5, true, true, false, true, false, true),
           Request(2, 1, true, true, false, false, false, false)])
  }

  /** Its guard is gone and the unit was handed to that entry. */
  function Stray(): State {
    State(Queue(1, 1, 2, []), [], [Guard(false, true), Guard(true, false), Guard(false, true)],
          [Request(0, 5, false, true, false, false, false, false),
           Request(1, 5, true, true, false, true, false, true),
           Request(2, 1, true, true, false, true, false, false)])
  }

  lemma ReachGrantPending() returns (acts: seq<Action>)
    ensures ValidRun(Init(1), acts) && Run(Init(1), acts) == GrantPending()
  {
    var s := Init(1);
    acts := [];
    acts, s := Continue(Init(1), acts, s, New(0, 5));
    acts, s := Continue(Init(1), acts, s, Poll(0));
    acts, s := Continue(Init(1), acts, s, New(1, 5));
    acts, s := Continue(Init(1), acts, s, Poll(1));
    assert s.q.heap == [Entry(5, 0, 1)] && s.holders == [Holder(5, 0)];
    acts, s := Continue(Init(1), acts, s, DropGuard(0));
    assert s == GrantPending();
  }

  lemma ReachBetterParked() returns (acts: seq<Action>)
    ensures ValidRun(Init(1), acts) && Run(Init(1), acts) == BetterParked()
  {
    acts := ReachGrantPending();
    var s := GrantPending();
    acts, s := Continue(Init(1), acts, s, New(2, 1));
    acts, s := Continue(Init(1), acts, s, Poll(2));
    assert s.q.heap == [Entry(1, 1, 2)];
    acts, s := Continue(Init(1), acts, s, Poll(1));
    assert s == BetterParked();
  }

  lemma ReachSeized() returns (acts: seq<Action>)
    ensures ValidRun(Init(1), acts) && Run(Init(1), acts) == Seized()
    ensures SomewhereRepreempts(Init(1), acts)
  {
    acts := ReachBetterParked();
    var s := BetterParked();
    assert VictimAmong(s.holders, 1, 0) == None && VictimAmong(s.holders, 1, 1) == Some(0);
    acts, s := Continue(Init(1), acts, s, Poll(2));
    assert s == Seized();
  }

  /** A re-poll that preempts need not lose the unit: the entry it leaves behind has not been served. */
  lemma HarmlessRepreemption() returns (acts: seq<Action>)
    ensures ValidRun(Init(1), acts) && SomewhereRepreempts(Init(1), acts)
    ensures GrantsOwned(Run(Init(1), acts)) && !SomewhereReleasesToSpent(Init(1), acts)
  {
    acts := ReachSeized();
    assert Outstanding(Seized()) == {};
    GrantLaw(1, acts);
  }

  lemma ReachStray() returns (acts: seq<Action>)
    ensures ValidRun(Init(1), acts) && Run(Init(1), acts) == Stray()
    ensures SomewhereRepreempts(Init(1), acts)
  {
    acts := ReachSeized();
    var s := Seized();
    acts, s := Continue(Init(1), acts, s, DropGuard(2));
    assert s == Stray();
  }

  /** One unit and three requests, of priorities 5, 5 and 1: after everything has been dropped
      the pool still counts its unit as in use. */
  lemma LostUnit() returns (acts: seq<Action>)
    ensures ValidRun(Init(1), acts)
    ensures SomewhereRepreempts(Init(1), acts) && SomewhereReleasesToSpent(Init(1), acts)
    ensures var s := Run(Init(1), acts);
            && (forall i :: 0 <= i < |s.reqs| ==> s.reqs[i].dropped)
            && (forall id :: 0 <= id < |s.guards| ==> s.guards[id].dropped)
            && s.q.inUse == 1
  {
    acts := ReachStray();
    var s := Stray();
    acts, s := Continue(Init(1), acts, s, DropGuard(1));
    acts, s := Continue(Init(1), acts, s, DropRequest(0));
    acts, s := Continue(Init(1), acts, s, DropRequest(1));
    acts, s := Continue(Init(1), acts, s, DropRequest(2));
    DrainLaw(1, acts);
  }
}
