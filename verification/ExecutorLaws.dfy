/** Laws of the executor: splitting a run, the order of dispatch, process ids, and service of wakes. */
module ExecutorLaws {
  import opened Options
  import opened Executors

  // ----- Splitting a run -----

  lemma {:induction false} StepsAdd<W, P>(body: Body<W, P>, s: Sim<W, P>, until: Option<real>, m: nat, n: nat)
    ensures Steps(body, s, until, m + n) == Steps(body, Steps(body, s, until, m), until, n)
    decreases m
  {
    if m > 0 { StepsAdd(body, Next(body, s, until), until, m - 1, n); }
  }

  lemma {:induction false} HaltedStays<W, P>(body: Body<W, P>, s: Sim<W, P>, until: Option<real>, n: nat)
    requires Halted(s, until)
    ensures Steps(body, s, until, n) == s
  {
    if n > 0 { HaltedStays(body, s, until, n - 1); }
  }

  /** Where a run halts does not depend on how many steps it was given. */
  lemma HaltsOnce<W, P>(body: Body<W, P>, s: Sim<W, P>, until: Option<real>, m: nat, n: nat)
    requires Halted(Steps(body, s, until, m), until) && Halted(Steps(body, s, until, n), until)
    ensures Steps(body, s, until, m) == Steps(body, s, until, n)
  {
    var (lo, hi) := if m <= n then (m, n) else (n, m);
    StepsAdd(body, s, until, lo, hi - lo);
    HaltedStays(body, Steps(body, s, until, lo), until, hi - lo);
  }

  /** Some number of the steps towards the later boundary are the steps towards the earlier one. */
  lemma {:induction false} EarlierSteps<W, P>(body: Body<W, P>, s: Sim<W, P>, t1: Option<real>, t2: Option<real>, n: nat)
    returns (m: nat)
    requires t1.Some? && t2.Some? && t1.value <= t2.value
    ensures m <= n && Steps(body, s, t1, n) == Steps(body, s, t2, m)
    ensures !Halted(Steps(body, s, t1, n), t1) ==> m == n
    decreases n
  {
    if n == 0 {
      m := 0;
    } else if Halted(s, t1) {
      HaltedStays(body, s, t1, n);
      m := 0;
    } else {
      var m' := EarlierSteps(body, Next(body, s, t1), t1, t2, n - 1);
      m := m' + 1;
    }
  }

  /** With nothing to admit, admitting does nothing. */
  lemma AdmitNothing<W, P>(s: Sim<W, P>)
    requires s.pending == []
    ensures Admit(s) == s
  {
    assert s.ready + [] == s.ready && s.pushes + [] == s.pushes;
  }

  lemma {:induction false} StepsLeaveNoPending<W, P>(body: Body<W, P>, s: Sim<W, P>, until: Option<real>, n: nat)
    requires s.pending == []
    ensures Steps(body, s, until, n).pending == []
    decreases n
  {
    if n > 0 { StepsLeaveNoPending(body, Next(body, s, until), until, n - 1); }
  }

  /** The clock left behind by the first run is overwritten by the next event or boundary. */
  lemma ResumeAfterClose<W, P>(body: Body<W, P>, h: Sim<W, P>, t1: Option<real>, t2: Option<real>, n: nat)
    requires t1.Some? && t2.Some? && t1.value <= t2.value && Halted(h, t1)
    ensures var a := Steps(body, Close(h, t1), t2, n); var b := Steps(body, h, t2, n);
            (Halted(a, t2) <==> Halted(b, t2)) && Close(a, t2) == Close(b, t2)
  {
    var c := Close(h, t1);
    if Halted(h, t2) {
      HaltedStays(body, h, t2, n);
      HaltedStays(body, c, t2, n);
    } else if n > 0 {
      assert Next(body, c, t2) == Next(body, h, t2);
    }
  }

  /** Running to `t1` and then to `t2` ends in exactly the states in which running to `t2` ends:
      same clock, table, queues, world, dispatch log and poll log. */
  lemma RunUntilSplits<W, P>(body: Body<W, P>, s: Sim<W, P>, t1: real, t2: real, mid: Sim<W, P>, r: Sim<W, P>)
    requires t1 <= t2 && Returns(body, s, Some(t1), mid)
    ensures Returns(body, mid, Some(t2), r) <==> Returns(body, s, Some(t2), r)
  {
    var start := Admit(s);
    var n1: nat :| ReturnsAfter(body, s, Some(t1), mid, n1);
    var h := Steps(body, start, Some(t1), n1);
    var m := EarlierSteps(body, start, Some(t1), Some(t2), n1);
    StepsLeaveNoPending(body, start, Some(t1), n1);
    AdmitNothing(mid);
    if Returns(body, mid, Some(t2), r) {
      var n2: nat :| ReturnsAfter(body, mid, Some(t2), r, n2);
      ResumeAfterClose(body, h, Some(t1), Some(t2), n2);
      StepsAdd(body, start, Some(t2), m, n2);
      assert ReturnsAfter(body, s, Some(t2), r, m + n2);
    }
    if Returns(body, s, Some(t2), r) {
      var n: nat :| ReturnsAfter(body, s, Some(t2), r, n);
      StepsAdd(body, start, Some(t2), m, n);
      StepsAdd(body, start, Some(t2), n, m);
      HaltedStays(body, Steps(body, start, Some(t2), n), Some(t2), m);
      ResumeAfterClose(body, h, Some(t1), Some(t2), n);
      assert ReturnsAfter(body, mid, Some(t2), r, n);
    }
  }

  /** A run has at most one outcome. */
  lemma OneOutcome<W, P>(body: Body<W, P>, s: Sim<W, P>, until: Option<real>, a: Sim<W, P>, b: Sim<W, P>)
    requires Returns(body, s, until, a) && Returns(body, s, until, b)
    ensures a == b
  {
    var m: nat :| ReturnsAfter(body, s, until, a, m);
    var n: nat :| ReturnsAfter(body, s, until, b, n);
    HaltsOnce(body, Admit(s), until, m, n);
  }

  /** If running to `t2` returns, so does running to an earlier boundary. */
  lemma EarlierReturns<W, P>(body: Body<W, P>, s: Sim<W, P>, t1: real, t2: real, r: Sim<W, P>) returns (mid: Sim<W, P>)
    requires t1 <= t2 && Returns(body, s, Some(t2), r)
    ensures Returns(body, s, Some(t1), mid)
  {
    var n: nat :| ReturnsAfter(body, s, Some(t2), r, n);
    var m := EarlierSteps(body, Admit(s), Some(t1), Some(t2), n);
    mid := Close(Steps(body, Admit(s), Some(t1), n), Some(t1));
    assert ReturnsAfter(body, s, Some(t1), mid, n);
  }

  // ----- Order of dispatch -----

  lemma {:induction false} InsertBefore(q: seq<Event>, e: Event) returns (k: nat)
    ensures k <= |q| && Insert(q, e) == q[..k] + [e] + q[k..]
    ensures forall i :: 0 <= i < k ==> !Before(e, q[i])
    ensures k < |q| ==> Before(e, q[k])
  {
    if q == [] || Before(e, q[0]) {
      k := 0;
    } else {
      var k' := InsertBefore(q[1..], e);
      k := k' + 1;
    }
  }

  lemma InsertSorted(log: seq<Event>, q: seq<Event>, e: Event)
    requires Sorted(log + q)
    requires forall x :: x in q ==> x.ticket < e.ticket
    requires forall x :: x in log ==> Before(x, e)
    ensures Sorted(log + Insert(q, e))
    ensures forall x :: x in Insert(q, e) <==> x == e || x in q
  {
    var k := InsertBefore(q, e);
    var a := log + q;
    var at := |log| + k;
    assert Insert(q, e) == q[..k] + [e] + q[k..] && a[..at] == log + q[..k] && a[at..] == q[k..];
    forall i | 0 <= i < at ensures Before(a[i], e) {
      if i >= |log| { NotAfter(q[i - |log|], e); } else { assert a[i] in log; }
    }
    forall i | at <= i < |a| ensures Before(e, a[i]) {
      if i > at { BeforeThen(e, a[at], a[i]); }
    }
    hide Before, Sorted, Insert;
    SplicedSorted(a, at, e);
    assert log + Insert(q, e) == a[..at] + [e] + a[at..];
    assert q == q[..k] + q[k..];
  }

  lemma NotAfter(x: Event, e: Event)
    requires !Before(e, x) && x.ticket < e.ticket
    ensures Before(x, e)
  {
  }

  lemma BeforeThen(x: Event, y: Event, z: Event)
    requires Before(x, y) && Before(y, z)
    ensures Before(x, z)
  {
  }

  lemma SplicedSorted(a: seq<Event>, at: nat, e: Event)
    requires Sorted(a) && at <= |a|
    requires forall i :: 0 <= i < at ==> Before(a[i], e)
    requires forall i :: at <= i < |a| ==> Before(e, a[i])
    ensures Sorted(a[..at] + [e] + a[at..])
  {
    var b := a[..at] + [e] + a[at..];
    forall i, j | 0 <= i < j < |b| ensures Before(b[i], b[j]) {
      assert b[i] == if i < at then a[i] else if i == at then e else a[i - 1];
      assert b[j] == if j < at then a[j] else if j == at then e else a[j - 1];
    }
  }

  lemma ScheduleKeepsOrder<W, P>(s: Sim<W, P>, time: real, process: nat)
    requires OrderInv(s) && time >= s.now
    ensures OrderInv(ScheduleWakeup(s, time, process))
  {
    InsertSorted(s.log, s.queue, Event(time, s.tickets, process));
  }

  lemma {:induction false} ApplyAllKeepsOrder<W, P>(s: Sim<W, P>, process: nat, effects: seq<Effect<P>>)
    requires OrderInv(s)
    requires forall k :: 0 <= k < |effects| && effects[k].Schedule? ==> effects[k].time >= s.now
    ensures var s' := ApplyAll(s, process, effects); OrderInv(s') && s'.now == s.now
    decreases |effects|
  {
    if effects != [] {
      var s1 := Apply(s, process, effects[0]);
      if effects[0].Schedule? { ScheduleKeepsOrder(s, effects[0].time, process); }
      assert forall k :: 0 <= k < |effects[1..]| ==> effects[1..][k] == effects[k + 1];
      ApplyAllKeepsOrder(s1, process, effects[1..]);
    }
  }

  lemma HeadIsLeast<W, P>(s: Sim<W, P>, e: Event)
    requires OrderInv(s) && e in s.queue
    ensures s.queue[0].time <= e.time
  {
    var i :| 0 <= i < |s.queue| && s.queue[i] == e;
    assert (s.log + s.queue)[|s.log|] == s.queue[0] && (s.log + s.queue)[|s.log| + i] == e;
  }

  lemma PopKeepsOrder<W, P>(s: Sim<W, P>)
    requires OrderInv(s) && s.queue != []
    ensures OrderInv(PopEvent(s)) && PopEvent(s).now >= s.now
  {
    var e := s.queue[0];
    var s' := PopEvent(s);
    assert s'.log + s'.queue == s.log + s.queue;
    assert e in s.queue;
    forall x | x in s.queue[1..] ensures e.time <= x.time && x.ticket < s.tickets {
      var k :| 0 <= k < |s.queue[1..]| && s.queue[1..][k] == x;
      assert (s.log + s.queue)[|s.log|] == e && (s.log + s.queue)[|s.log| + k + 1] == x;
    }
  }

  /** The process at the head of the ready queue schedules a wakeup for a time already past. */
  ghost predicate SchedulesPast<W, P>(body: Body<W, P>, s: Sim<W, P>) {
    && s.ready != [] && s.ready[0] < |s.slots| && s.slots[s.ready[0]].Some?
    && PastSchedule(body(s.world, s.slots[s.ready[0]].value, Context(s.ready[0], s.now, |s.slots|, s.nextId)).effects,
                    s.now)
  }

  ghost predicate PastSchedule<P>(effects: seq<Effect<P>>, now: real) {
    exists k :: 0 <= k < |effects| && effects[k].Schedule? && effects[k].time < now
  }

  lemma PollKeepsOrder<W(!new), P(!new)>(body: Body<W, P>, s: Sim<W, P>)
    requires OrderInv(s) && s.ready != []
    ensures OrderInv(PollHead(body, s)) <==> !SchedulesPast(body, s)
    ensures PollHead(body, s).now == s.now
  {
    hide FillAll;
    var id := s.ready[0];
    if id < |s.slots| && s.slots[id].Some? {
      var c := Context(id, s.now, |s.slots|, s.nextId);
      var o := body(s.world, s.slots[id].value, c);
      var taken := s.(ready := s.ready[1..], polls := s.polls + [id], slots := s.slots[id := None], world := o.world);
      var after := ApplyAll(taken, id, o.effects);
      ApplyAllFrame(taken, id, o.effects);
      SameOrder(after, PollHead(body, s));
      if PastSchedule(o.effects, s.now) {
        ApplyAllAdds(taken, id, o.effects);
      } else {
        ApplyAllKeepsOrder(taken, id, o.effects);
      }
    }
  }

  lemma SameOrder<W, P>(s: Sim<W, P>, s': Sim<W, P>)
    requires s'.queue == s.queue && s'.log == s.log && s'.now == s.now && s'.tickets == s.tickets
    ensures OrderInv(s') <==> OrderInv(s)
  {
  }

  ghost predicate OrderedThroughout<W, P>(body: Body<W, P>, s: Sim<W, P>, until: Option<real>, n: nat)
    decreases n
  {
    OrderInv(s) && (n == 0 || OrderedThroughout(body, Next(body, s, until), until, n - 1))
  }

  ghost predicate SomewhereSchedulesPast<W, P>(body: Body<W, P>, s: Sim<W, P>, until: Option<real>, n: nat)
    decreases n
  {
    n > 0 && (SchedulesPast(body, s) || SomewhereSchedulesPast(body, Next(body, s, until), until, n - 1))
  }

  /** Clock, event queue and dispatch log stay in order at every step of a run if and only if no poll
      of the run schedules a wakeup in the past; and then the clock never goes back. */
  lemma {:induction false} OrderLaw<W(!new), P(!new)>(body: Body<W, P>, s: Sim<W, P>, until: Option<real>, n: nat)
    requires OrderInv(s)
    ensures OrderedThroughout(body, s, until, n) <==> !SomewhereSchedulesPast(body, s, until, n)
    ensures !SomewhereSchedulesPast(body, s, until, n) ==>
              var s' := Steps(body, s, until, n); OrderInv(s') && s'.now >= s.now
    decreases n
  {
    hide OrderInv, SchedulesPast, PollHead, PopEvent;
    if n > 0 {
      if !Halted(s, until) && s.ready != [] {
        PollKeepsOrder(body, s);
      } else {
        NobodyPolled(body, s);
        if !Halted(s, until) { PopKeepsOrder(s); }
      }
      if OrderInv(Next(body, s, until)) {
        OrderLaw(body, Next(body, s, until), until, n - 1);
      }
    }
  }

  lemma NobodyPolled<W, P>(body: Body<W, P>, s: Sim<W, P>)
    ensures s.ready == [] ==> !SchedulesPast(body, s)
  {
  }

  lemma {:induction false} DisciplinedRun<W(!new), P(!new)>(body: Body<W, P>, s: Sim<W, P>, until: Option<real>, n: nat)
    requires NeverInThePast(body)
    ensures !SomewhereSchedulesPast(body, s, until, n)
    decreases n
  {
    hide Next;
    if n > 0 {
      DisciplinedRun(body, Next(body, s, until), until, n - 1);
    }
  }

  /** With processes that never schedule in the past, the order is kept from any state. */
  lemma StepsKeepOrder<W(!new), P(!new)>(body: Body<W, P>, s: Sim<W, P>, until: Option<real>, n: nat)
    requires NeverInThePast(body) && OrderInv(s)
    ensures var s' := Steps(body, s, until, n); OrderInv(s') && s'.now >= s.now
  {
    hide NeverInThePast, OrderInv, Steps;
    DisciplinedRun(body, s, until, n);
    OrderLaw(body, s, until, n);
  }

  /** What a run adds to the log is before the boundary, and so is the clock once it has moved. */
  lemma {:induction false} StepsStayBefore<W, P>(body: Body<W, P>, s: Sim<W, P>, until: Option<real>, n: nat)
    ensures var s' := Steps(body, s, until, n);
            && s.log <= s'.log
            && (until.Some? ==> forall k :: |s.log| <= k < |s'.log| ==> s'.log[k].time < until.value)
            && (until.Some? ==> s'.now == s.now || s'.now < until.value)
    decreases n
  {
    hide PollHead;
    if n > 0 {
      var s' := Next(body, s, until);
      if s.ready != [] { PollLog(body, s); }
      StepsStayBefore(body, s', until, n - 1);
    }
  }

  lemma PollLog<W, P>(body: Body<W, P>, s: Sim<W, P>)
    requires s.ready != []
    ensures PollHead(body, s).log == s.log && PollHead(body, s).now == s.now
  {
    var id := s.ready[0];
    if id < |s.slots| && s.slots[id].Some? {
      var o := body(s.world, s.slots[id].value, Context(id, s.now, |s.slots|, s.nextId));
      ApplyAllFrame(s.(ready := s.ready[1..], polls := s.polls + [id], slots := s.slots[id := None], world := o.world),
                  id, o.effects);
    }
  }

  lemma {:induction false} ApplyAllFrame<W, P>(s: Sim<W, P>, process: nat, effects: seq<Effect<P>>)
    ensures var s' := ApplyAll(s, process, effects); s'.log == s.log && s'.now == s.now && s'.slots == s.slots
    decreases |effects|
  {
    if effects != [] { ApplyAllFrame(Apply(s, process, effects[0]), process, effects[1..]); }
  }

  /** When no poll of a run schedules in the past, the run dispatches events strictly in (time, ticket)
      order, and the clock does not go back; with a boundary, no event at or after it is dispatched,
      and the clock ends at the boundary, unless it was already past it. */
  lemma DispatchOrder<W(!new), P(!new)>(body: Body<W, P>, s: Sim<W, P>, until: Option<real>, r: Sim<W, P>, n: nat)
    requires OrderInv(s) && ReturnsAfter(body, s, until, r, n)
    requires !SomewhereSchedulesPast(body, Admit(s), until, n)
    ensures OrderInv(r) && Sorted(r.log) && s.log <= r.log && r.now >= s.now
    ensures until.Some? ==> r.now == if s.now >= until.value then s.now else until.value
    ensures until.Some? ==> forall k :: |s.log| <= k < |r.log| ==> r.log[k].time < until.value
  {
    hide Steps, SomewhereSchedulesPast, OrderedThroughout, FillAll;
    var h := Steps(body, Admit(s), until, n);
    SameOrder(s, Admit(s));
    OrderLaw(body, Admit(s), until, n);
    StepsStayBefore(body, Admit(s), until, n);
    forall i, j | 0 <= i < j < |h.log| ensures Before(h.log[i], h.log[j]) {
      assert (h.log + h.queue)[i] == h.log[i] && (h.log + h.queue)[j] == h.log[j];
    }
    forall e | e in h.queue && until.Some? ensures e.time >= until.value {
      HeadIsLeast(h, e);
    }
  }

  /** The check in `schedule_wakeup` is exact: a wakeup keeps the queue and clock in order, and
      dispatching the least event does not move the clock back, just when the time is not past. */
  lemma ScheduleLaw<W, P>(s: Sim<W, P>, time: real, process: nat)
    requires OrderInv(s)
    ensures OrderInv(ScheduleWakeup(s, time, process)) <==> time >= s.now
    ensures ScheduleWakeup(s, time, process).queue != []
    ensures PopEvent(ScheduleWakeup(s, time, process)).now >= s.now <==> time >= s.now
  {
    var e := Event(time, s.tickets, process);
    var s' := ScheduleWakeup(s, time, process);
    var k := InsertBefore(s.queue, e);
    assert s'.queue[k] == e;
    assert s.queue != [] ==> s.queue[0] in s.queue;
    if time >= s.now {
      ScheduleKeepsOrder(s, time, process);
      PopKeepsOrder(s');
    }
  }

  // ----- Process ids and service of wakes -----

  /** Every occupied or vacated slot keeps its index: a slot once vacated is never filled again. */
  ghost predicate Vacancies<W, P>(s: Sim<W, P>, s': Sim<W, P>) {
    |s.slots| <= |s'.slots| && forall id :: 0 <= id < |s.slots| && s.slots[id].None? ==> s'.slots[id].None?
  }

  lemma {:induction false} FillAllAppends<P>(slots: seq<Option<P>>, spawns: seq<(nat, P)>)
    requires forall k :: 0 <= k < |spawns| ==> spawns[k].0 == |slots| + k
    ensures FillAll(slots, spawns) == slots + seq(|spawns|, i requires 0 <= i < |spawns| => Some(spawns[i].1))
    decreases |spawns|
  {
    if spawns != [] {
      var wider := Fill(slots, spawns[0].0, spawns[0].1);
      assert wider == slots + [Some(spawns[0].1)];
      FillAllAppends(wider, spawns[1..]);
    }
  }

  lemma AdmitKeepsIds<W, P>(s: Sim<W, P>)
    requires IdsInv(s)
    ensures var s' := Admit(s);
            IdsInv(s') && s'.pending == [] && Vacancies(s, s') && |s'.slots| == s.nextId && s.pushes <= s'.pushes
  {
    FillAllAppends(s.slots, s.pending);
    var s' := Admit(s);
    assert forall k :: 0 <= k < |s.pending| ==> Ids(s.pending)[k] == |s.slots| + k;
    assert s'.polls + s'.ready == (s.polls + s.ready) + Ids(s.pending);
  }

  lemma {:induction false} ApplyAllKeepsIds<W, P>(s: Sim<W, P>, process: nat, effects: seq<Effect<P>>)
    requires IdsInv(s) && process < |s.slots|
    requires forall k :: 0 <= k < |effects| && effects[k].Wake? ==> effects[k].process < |s.slots|
    ensures var s' := ApplyAll(s, process, effects);
            IdsInv(s') && s'.slots == s.slots && s.pushes <= s'.pushes
    decreases |effects|
  {
    if effects != [] {
      var s1 := Apply(s, process, effects[0]);
      match effects[0] {
        case Schedule(time) => var k := InsertBefore(s.queue, Event(time, s.tickets, process));
          assert s.queue == s.queue[..k] + s.queue[k..];
        case Wake(q) => assert s1.polls + s1.ready == (s.polls + s.ready) + [q];
        case Spawn(_) =>
      }
      assert forall k :: 0 <= k < |effects[1..]| ==> effects[1..][k] == effects[k + 1];
      ApplyAllKeepsIds(s1, process, effects[1..]);
    }
  }

  lemma TakeKeepsIds<W, P>(s: Sim<W, P>, slots: seq<Option<P>>, world: W)
    requires IdsInv(s) && s.ready != [] && |slots| == |s.slots|
    ensures var id := s.ready[0];
            id < |s.slots| && IdsInv(s.(ready := s.ready[1..], polls := s.polls + [id], slots := slots, world := world))
  {
    var id := s.ready[0];
    assert s.ready == [id] + s.ready[1..] && id in s.ready;
    assert s.polls + [id] + s.ready[1..] == s.polls + s.ready;
    assert forall x :: x in s.ready[1..] ==> x in s.ready;
  }

  lemma SlotsKeepIds<W, P>(s: Sim<W, P>, slots: seq<Option<P>>)
    requires IdsInv(s) && |slots| == |s.slots|
    ensures IdsInv(s.(slots := slots))
  {
  }

  /** What a body asks for while its process is polled names admitted processes only. */
  lemma EffectsKeepIds<W(!new), P(!new)>(body: Body<W, P>, s: Sim<W, P>, taken: Sim<W, P>, p: P, c: Context)
    requires WakesAdmitted(body) && IdsInv(taken) && c.admitted == |taken.slots| && c.process < |taken.slots|
    ensures var s' := ApplyAll(taken, c.process, body(s.world, p, c).effects);
            IdsInv(s') && s'.slots == taken.slots && taken.pushes <= s'.pushes
  {
    hide IdsInv, ApplyAll;
    var o := body(s.world, p, c);
    forall k | 0 <= k < |o.effects| && o.effects[k].Wake? ensures o.effects[k].process < |taken.slots| {
      assert k < |body(s.world, p, c).effects|;
    }
    ApplyAllKeepsIds(taken, c.process, o.effects);
  }

  lemma PollKeepsIds<W(!new), P(!new)>(body: Body<W, P>, s: Sim<W, P>)
    requires WakesAdmitted(body) && IdsInv(s) && s.ready != []
    ensures var s' := PollHead(body, s); IdsInv(s') && Vacancies(s, s') && s.pushes <= s'.pushes
    ensures s.pending == [] ==> PollHead(body, s).pending == []
  {
    hide IdsInv, ApplyAll, Admit;
    var id := s.ready[0];
    TakeKeepsIds(s, s.slots, s.world);
    if s.slots[id].Some? {
      var c := Context(id, s.now, |s.slots|, s.nextId);
      var o := body(s.world, s.slots[id].value, c);
      var slots := s.slots[id := None];
      TakeKeepsIds(s, slots, o.world);
      var taken := s.(ready := s.ready[1..], polls := s.polls + [id], slots := slots, world := o.world);
      EffectsKeepIds(body, s, taken, s.slots[id].value, c);
      var after := ApplyAll(taken, id, o.effects);
      SlotsKeepIds(after, after.slots[id := o.next]);
      AdmitKeepsIds(after.(slots := after.slots[id := o.next]));
    }
  }

  lemma PopKeepsIds<W, P>(s: Sim<W, P>)
    requires IdsInv(s) && s.queue != []
    ensures var s' := PopEvent(s); IdsInv(s') && Vacancies(s, s') && s.pushes <= s'.pushes && s'.pending == []
  {
    var e := s.queue[0];
    var s1 := Push(s.(now := e.time, queue := s.queue[1..], log := s.log + [e]), [e.process]);
    assert e in s.queue && forall x :: x in s.queue[1..] ==> x in s.queue;
    assert s1.polls + s1.ready == (s.polls + s.ready) + [e.process];
    AdmitKeepsIds(s1);
  }

  /** Along any run the ready queue and the events only name admitted processes, ids are dense, a
      finished process's id is never used again, and the wakes are served first-in first-out. */
  lemma {:induction false} StepsKeepIds<W(!new), P(!new)>(body: Body<W, P>, s: Sim<W, P>, until: Option<real>, n: nat)
    requires WakesAdmitted(body) && IdsInv(s)
    ensures var s' := Steps(body, s, until, n);
            IdsInv(s') && Vacancies(s, s') && s.pushes <= s'.pushes && s'.polls <= s'.pushes
    decreases n
  {
    hide IdsInv, Vacancies, PollHead, PopEvent, WakesAdmitted;
    NoVacancyFilled(s, s, s);
    PollsArePushes(s);
    if n > 0 {
      var s1 := Next(body, s, until);
      if !Halted(s, until) {
        if s.ready != [] { PollKeepsIds(body, s); } else { PopKeepsIds(s); }
      }
      StepsKeepIds(body, s1, until, n - 1);
      NoVacancyFilled(s, s1, Steps(body, s1, until, n - 1));
    }
  }

  lemma NoVacancyFilled<W, P>(s: Sim<W, P>, s1: Sim<W, P>, s2: Sim<W, P>)
    ensures Vacancies(s, s)
    ensures Vacancies(s, s1) && Vacancies(s1, s2) ==> Vacancies(s, s2)
  {
    if Vacancies(s, s1) && Vacancies(s1, s2) {
      forall id | 0 <= id < |s.slots| && s.slots[id].None? ensures s2.slots[id].None? {
        assert s1.slots[id].None?;
      }
    }
  }

  lemma PollsArePushes<W, P>(s: Sim<W, P>)
    requires IdsInv(s)
    ensures s.polls <= s.pushes
  {
    assert s.pushes == s.polls + s.ready;
  }

  /** Every wake is followed by a poll of the woken id before the clock moves, and before a run
      returns: whenever an event is about to be dispatched, or the run halts, the polls made are
      exactly the wakes received, in the same order. */
  lemma WakesAreServed<W(!new), P(!new)>(body: Body<W, P>, s: Sim<W, P>, until: Option<real>, n: nat)
    requires WakesAdmitted(body) && IdsInv(s)
    ensures var a := Steps(body, s, until, n); var b := Steps(body, s, until, n + 1);
            (a.now != b.now || a.log != b.log || Halted(a, until) ==> a.polls == a.pushes)
  {
    var a := Steps(body, s, until, n);
    StepsKeepIds(body, s, until, n);
    StepsAdd(body, s, until, n, 1);
    assert Steps(body, a, until, 1) == Next(body, a, until);
    if a.ready != [] {
      PollLog(body, a);
    }
  }

  // ----- What one poll leaves alone -----

  lemma {:induction false} ApplyAllAdds<W, P>(s: Sim<W, P>, process: nat, effects: seq<Effect<P>>)
    ensures var s' := ApplyAll(s, process, effects);
            && s'.world == s.world && s.ready <= s'.ready
            && (forall e :: e in s.queue ==> e in s'.queue)
            && (forall k :: 0 <= k < |effects| && effects[k].Schedule? ==>
                  exists e :: e in s'.queue && e.time == effects[k].time && e.process == process)
    decreases |effects|
  {
    if effects != [] {
      var s1 := Apply(s, process, effects[0]);
      var s' := ApplyAll(s, process, effects);
      ApplyAllAdds(s1, process, effects[1..]);
      if effects[0].Schedule? {
        var e := Event(effects[0].time, s.tickets, process);
        var k := InsertBefore(s.queue, e);
        assert s.queue == s.queue[..k] + s.queue[k..];
        assert s1.queue[k] == e && e in s'.queue;
      }
      forall k | 0 <= k < |effects| && effects[k].Schedule?
        ensures exists e :: e in s'.queue && e.time == effects[k].time && e.process == process
      {
        if k > 0 { assert effects[1..][k - 1] == effects[k]; }
      }
    }
  }

  /** A poll changes no other process's slot, takes only its own id from the ready queue and nothing
      from the event queue, and queues the wakeups its process asked for. */
  lemma PollFrame<W(!new), P(!new)>(body: Body<W, P>, s: Sim<W, P>, id: nat)
    requires WakesAdmitted(body) && IdsInv(s)
    requires s.ready != [] && id == s.ready[0] && id < |s.slots| && s.slots[id].Some?
    ensures var o := body(s.world, s.slots[id].value, Context(id, s.now, |s.slots|, s.nextId));
            var s' := PollHead(body, s);
            && s'.now == s.now && s'.world == o.world && |s.slots| <= |s'.slots| && s'.slots[id] == o.next
            && (forall j :: 0 <= j < |s.slots| && j != id ==> s'.slots[j] == s.slots[j])
            && (forall x :: x in s.ready && x != id ==> x in s'.ready)
            && (forall e :: e in s.queue ==> e in s'.queue)
            && (forall k :: 0 <= k < |o.effects| && o.effects[k].Schedule? ==>
                  exists e :: e in s'.queue && e.time == o.effects[k].time && e.process == id)
  {
    hide IdsInv, FillAll;
    var c := Context(id, s.now, |s.slots|, s.nextId);
    var o := body(s.world, s.slots[id].value, c);
    var taken := s.(ready := s.ready[1..], polls := s.polls + [id], slots := s.slots[id := None], world := o.world);
    var after := ApplyAll(taken, id, o.effects);
    PollLog(body, s);
    ApplyAllAdds(taken, id, o.effects);
    ApplyAllFrame(taken, id, o.effects);
    PollAdmits(body, s, id);
    assert s.ready == [id] + s.ready[1..];
    assert forall x :: x in taken.ready ==> x in after.ready;
  }

  lemma PollAdmits<W(!new), P(!new)>(body: Body<W, P>, s: Sim<W, P>, id: nat)
    requires WakesAdmitted(body) && IdsInv(s)
    requires s.ready != [] && id == s.ready[0] && id < |s.slots| && s.slots[id].Some?
    ensures var o := body(s.world, s.slots[id].value, Context(id, s.now, |s.slots|, s.nextId));
            var taken := s.(ready := s.ready[1..], polls := s.polls + [id], slots := s.slots[id := None],
                            world := o.world);
            var slots := ApplyAll(taken, id, o.effects).slots;
            id < |slots| && slots[id := o.next] <= PollHead(body, s).slots
  {
    hide IdsInv, ApplyAll, FillAll;
    var c := Context(id, s.now, |s.slots|, s.nextId);
    var o := body(s.world, s.slots[id].value, c);
    var slots := s.slots[id := None];
    TakeKeepsIds(s, slots, o.world);
    var taken := s.(ready := s.ready[1..], polls := s.polls + [id], slots := slots, world := o.world);
    EffectsKeepIds(body, s, taken, s.slots[id].value, c);
    var after := ApplyAll(taken, id, o.effects);
    PendingFollow(after);
    FillAllAppends(after.slots[id := o.next], after.pending);
  }

  lemma PendingFollow<W, P>(s: Sim<W, P>)
    requires IdsInv(s)
    ensures forall k :: 0 <= k < |s.pending| ==> s.pending[k].0 == |s.slots| + k
  {
  }
}
