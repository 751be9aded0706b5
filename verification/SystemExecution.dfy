/** The executor drives the machine: every whole poll of a process and every event popped is one step
    of `Executors`, so what is proved about wakes is true of its runs. */
module SystemExecution {
  import opened Options
  import opened Systems
  import opened SystemLaws
  import Processes
  import E = Executors
  import L = ExecutorLaws

  /** Its world counts the polls made; a suspended process carries nothing. */
  type Machine = E.Sim<nat, ()>

  // ----- The two event queues -----

  function EventOf(d: Due, ticket: nat): E.Event {
    E.Event(d.time, ticket, d.owner)
  }

  function Listing(q: seq<Due>, tickets: seq<nat>): (events: seq<E.Event>)
    requires |tickets| == |q|
    ensures |events| == |q| && forall k :: 0 <= k < |q| ==> events[k] == EventOf(q[k], tickets[k])
  {
    seq(|q|, k requires 0 <= k < |q| => EventOf(q[k], tickets[k]))
  }

  ghost predicate Rising(tickets: seq<nat>, next: nat) {
    && (forall i, j :: 0 <= i < j < |tickets| ==> tickets[i] < tickets[j])
    && (forall k :: 0 <= k < |tickets| ==> tickets[k] < next)
  }

  ghost predicate SameEvents(listed: seq<E.Event>, events: seq<E.Event>) {
    |listed| == |events| && forall e :: e in events <==> e in listed
  }

  /** The same events: by order of insertion on one side, with these tickets, sorted on the other. */
  ghost predicate Ticketed(q: seq<Due>, tickets: seq<nat>, events: seq<E.Event>, next: nat) {
    |tickets| == |q| && Rising(tickets, next) && E.Sorted(events) && SameEvents(Listing(q, tickets), events)
  }

  ghost predicate SameQueue(q: seq<Due>, events: seq<E.Event>, next: nat) {
    exists tickets :: Ticketed(q, tickets, events, next)
  }

  lemma InsertMatches(q: seq<Due>, tickets: seq<nat>, events: seq<E.Event>, next: nat, d: Due)
    requires Ticketed(q, tickets, events, next)
    ensures Ticketed(q + [d], tickets + [next], E.Insert(events, EventOf(d, next)), next + 1)
  {
    var e, listed := EventOf(d, next), Listing(q, tickets);
    assert Listing(q + [d], tickets + [next]) == listed + [e];
    forall x | x in events ensures x.ticket < next {
      var k :| 0 <= k < |listed| && listed[k] == x;
    }
    InsertIntoSorted(events, e);
    hide E.Sorted, E.Insert;
  }

  lemma InsertIntoSorted(events: seq<E.Event>, e: E.Event)
    requires E.Sorted(events) && forall x :: x in events ==> x.ticket < e.ticket
    ensures var events' := E.Insert(events, e);
            E.Sorted(events') && |events'| == |events| + 1 && forall x :: x in events' <==> x == e || x in events
  {
    hide E.Sorted, E.Insert, E.Before;
    var none: seq<E.Event> := [];
    assert none + events == events && none + E.Insert(events, e) == E.Insert(events, e);
    L.InsertSorted(none, events, e);
    var at := L.InsertBefore(events, e);
  }

  /** The first event is the earliest entry, first inserted among equals. */
  lemma FirstIsEarliest(q: seq<Due>, tickets: seq<nat>, events: seq<E.Event>, next: nat, k: nat)
    requires Ticketed(q, tickets, events, next) && Earliest(q, k)
    ensures events != [] && events[0] == EventOf(q[k], tickets[k])
  {
    var listed := Listing(q, tickets);
    assert events[0] in events && listed[k] in listed;
    var j :| 0 <= j < |listed| && listed[j] == events[0];
    var m :| 0 <= m < |events| && events[m] == listed[k];
    if m > 0 {
      assert E.Before(events[0], events[m]);
    }
  }

  lemma RemoveMembers(xs: seq<E.Event>, k: nat)
    requires k < |xs| && forall i, j :: 0 <= i < j < |xs| ==> xs[i] != xs[j]
    ensures forall x :: x in xs[..k] + xs[k + 1..] <==> x in xs && x != xs[k]
  {
    var rest := xs[..k] + xs[k + 1..];
    forall x | x in xs && x != xs[k] ensures x in rest {
      var i :| 0 <= i < |xs| && xs[i] == x;
      assert rest[if i < k then i else i - 1] == x;
    }
  }

  lemma RisingWithout(tickets: seq<nat>, k: nat, next: nat)
    requires Rising(tickets, next) && k < |tickets|
    ensures Rising(tickets[..k] + tickets[k + 1..], next)
  {
  }

  lemma SortedAfterFirst(events: seq<E.Event>)
    requires E.Sorted(events) && events != []
    ensures E.Sorted(events[1..]) && forall i, j :: 0 <= i < j < |events| ==> events[i] != events[j]
  {
    forall i, j | 0 <= i < j < |events| ensures events[i] != events[j] {
      assert E.Before(events[i], events[j]);
    }
  }

  lemma PopMatches(q: seq<Due>, tickets: seq<nat>, events: seq<E.Event>, next: nat, k: nat)
    requires Ticketed(q, tickets, events, next) && Earliest(q, k)
    ensures events != [] && events[0] == EventOf(q[k], tickets[k])
    ensures Ticketed(q[..k] + q[k + 1..], tickets[..k] + tickets[k + 1..], events[1..], next)
  {
    FirstIsEarliest(q, tickets, events, next, k);
    var listed := Listing(q, tickets);
    assert Listing(q[..k] + q[k + 1..], tickets[..k] + tickets[k + 1..]) == listed[..k] + listed[k + 1..];
    forall i, j | 0 <= i < j < |listed| ensures listed[i] != listed[j] {
      assert listed[i].ticket < listed[j].ticket;
    }
    assert listed[k] == events[0];
    RisingWithout(tickets, k, next);
    SortedAfterFirst(events);
    hide Earliest, E.Sorted, Rising;
    RemoveSame(listed, events, k);
  }

  lemma RemoveSame(listed: seq<E.Event>, events: seq<E.Event>, k: nat)
    requires SameEvents(listed, events) && k < |listed| && listed[k] == events[0]
    requires forall i, j :: 0 <= i < j < |listed| ==> listed[i] != listed[j]
    requires forall i, j :: 0 <= i < j < |events| ==> events[i] != events[j]
    ensures SameEvents(listed[..k] + listed[k + 1..], events[1..])
  {
    RemoveMembers(listed, k);
    RemoveMembers(events, 0);
    assert events[..0] + events[0 + 1..] == events[1..];
    forall e ensures e in events[1..] <==> e in listed[..k] + listed[k + 1..] {
      assert e in events <==> e in listed;
    }
  }

  // ----- The two process tables -----

  /** A slot is occupied unless its process has finished or is being polled. */
  ghost predicate SameTable(s: Sys, x: Machine) {
    && x.now == s.now && x.ready == s.ready && x.nextId == |s.procs| && |x.slots| == Admitted(s)
    && |x.pending| == |s.pending| && (forall k :: 0 <= k < |s.pending| ==> x.pending[k].0 == s.pending[k])
    && (forall p :: 0 <= p < |x.slots| ==> (x.slots[p].Some? <==> !s.procs[p].finished && s.current != Some(p)))
  }

  ghost predicate Matches(s: Sys, x: Machine) {
    SameTable(s, x) && SameQueue(s.queue, x.queue, x.tickets)
  }

  lemma AdmitMatches(s: Sys, x: Machine)
    requires PendingInv(s) && Matches(s, x) && s.current.None?
    ensures Matches(Admit(s), E.Admit(x)) && E.Admit(x).world == x.world
  {
    hide SameQueue;
    L.FillAllAppends(x.slots, x.pending);
    var s', x' := Admit(s), E.Admit(x);
    assert E.Ids(x.pending) == s.pending;
    forall p | 0 <= p < |x'.slots| ensures x'.slots[p].Some? <==> !s'.procs[p].finished && s'.current != Some(p) {
      if p >= |x.slots| { assert x'.slots[p].Some?; }
    }
  }

  lemma PopDueMatches(s: Sys, x: Machine, k: nat)
    requires Matches(s, x) && s.current.None? && s.pending == [] && Earliest(s.queue, k)
    ensures x.queue != [] && Matches(PopDue(s, k), E.PopEvent(x)) && E.PopEvent(x).world == x.world
  {
    assert k < |s.queue|;
    hide E.Sorted, Earliest, Ticketed;
    var tickets :| Ticketed(s.queue, tickets, x.queue, x.tickets);
    PopMatches(s.queue, tickets, x.queue, x.tickets, k);
    var e := x.queue[0];
    L.AdmitNothing(E.Push(x.(now := e.time, queue := x.queue[1..], log := x.log + [e]), [e.process]));
    assert SameQueue(PopDue(s, k).queue, E.PopEvent(x).queue, x.tickets);
  }

  // ----- What a process asks of the executor -----

  /** Done while a process is being polled, or by the program between runs. */
  predicate InPoll(a: Action) {
    !a.Drain? && !a.Take? && !a.Suspend? && !a.Finish? && !a.Pop? && !a.Advance?
  }

  function Wakes(ids: seq<nat>): seq<E.Effect<()>> {
    seq(|ids|, k requires 0 <= k < |ids| => E.Wake(ids[k]))
  }

  function Schedules(dues: seq<Due>): seq<E.Effect<()>> {
    seq(|dues|, k requires 0 <= k < |dues| => E.Schedule(dues[k].time))
  }

  /** The wakeups it schedules, the wakers it calls and the processes it spawns. */
  ghost function EffectsOf(s: Sys, a: Action): seq<E.Effect<()>>
    requires Enabled(s, a)
  {
    var s' := Step(s, a);
    (if s.queue <= s'.queue then Schedules(s'.queue[|s.queue|..]) else [])
    + (if s.ready <= s'.ready then Wakes(s'.ready[|s.ready|..]) else [])
    + (if a.Spawn? then [E.Spawn(())] else [])
  }

  ghost predicate AllInPoll(acts: seq<Action>) {
    forall k :: 0 <= k < |acts| ==> InPoll(acts[k])
  }

  ghost function Effects(s: Sys, acts: seq<Action>): seq<E.Effect<()>>
    requires ValidRun(s, acts)
    decreases |acts|
  {
    if acts == [] then [] else EffectsOf(s, acts[0]) + Effects(Step(s, acts[0]), acts[1..])
  }

  lemma {:induction false} ApplyAppend(x: Machine, p: nat, a: seq<E.Effect<()>>, b: seq<E.Effect<()>>)
    ensures E.ApplyAll(x, p, a + b) == E.ApplyAll(E.ApplyAll(x, p, a), p, b)
    decreases |a|
  {
    if a == [] {
      assert a + b == b;
    } else {
      assert (a + b)[1..] == a[1..] + b;
      ApplyAppend(E.Apply(x, p, a[0]), p, a[1..], b);
    }
  }

  lemma {:induction false} ApplyWakes(x: Machine, p: nat, ids: seq<nat>)
    ensures E.ApplyAll(x, p, Wakes(ids)) == E.Push(x, ids)
    decreases |ids|
  {
    if ids == [] {
      assert x.ready + ids == x.ready && x.pushes + ids == x.pushes;
    } else {
      var x1 := E.Push(x, [ids[0]]);
      assert Wakes(ids)[1..] == Wakes(ids[1..]) && ids == [ids[0]] + ids[1..];
      ApplyWakes(x1, p, ids[1..]);
      assert x1.ready + ids[1..] == x.ready + ids && x1.pushes + ids[1..] == x.pushes + ids;
    }
  }

  lemma {:induction false} ApplySchedules(x: Machine, p: nat, q: seq<Due>, dues: seq<Due>)
    requires SameQueue(q, x.queue, x.tickets) && forall k :: 0 <= k < |dues| ==> dues[k].owner == p
    ensures var x' := E.ApplyAll(x, p, Schedules(dues));
            && SameQueue(q + dues, x'.queue, x'.tickets)
            && x' == x.(queue := x'.queue, tickets := x'.tickets)
    decreases |dues|
  {
    hide Ticketed, E.Insert;
    if dues == [] {
      assert q + dues == q;
    } else {
      var x1 := E.ScheduleWakeup(x, dues[0].time, p);
      var tickets :| Ticketed(q, tickets, x.queue, x.tickets);
      InsertMatches(q, tickets, x.queue, x.tickets, dues[0]);
      assert SameQueue(q + [dues[0]], x1.queue, x1.tickets);
      assert Schedules(dues)[1..] == Schedules(dues[1..]) && q + dues == (q + [dues[0]]) + dues[1..];
      ApplySchedules(x1, p, q + [dues[0]], dues[1..]);
    }
  }

  /** During a poll nothing leaves the queues, the clock and the running process stay, no process
      finishes, and only the running process schedules. */
  ghost predicate Extends(s: Sys, s': Sys, spawned: nat) {
    && s'.now == s.now && s'.current == s.current && s.ready <= s'.ready && s.queue <= s'.queue
    && (forall k :: |s.queue| <= k < |s'.queue| ==> Some(s'.queue[k].owner) == s.current)
    && |s'.procs| == |s.procs| + spawned && |s'.pending| == |s.pending| + spawned && s.pending <= s'.pending
    && (forall k :: |s.pending| <= k < |s'.pending| ==> s'.pending[k] == |s.procs| + k - |s.pending|)
    && (forall p :: 0 <= p < |s.procs| ==> s'.procs[p].finished == s.procs[p].finished)
  }

  lemma PollExtends(s: Sys, leaf: Leaf)
    requires Mine(s, leaf)
    ensures Extends(s, PollLeaf(s, leaf), 0)
  {
  }

  lemma DropExtends(s: Sys, leaf: Leaf)
    requires Live(s, leaf)
    ensures Extends(s, DropLeaf(s, leaf), 0)
  {
  }

  lemma InPollExtends(s: Sys, a: Action)
    requires Enabled(s, a) && InPoll(a)
    ensures Extends(s, Step(s, a), if a.Spawn? then 1 else 0)
  {
    hide PollLeaf, DropLeaf, Live;
    if a.Poll? {
      PollExtends(s, a.leaf);
    } else if a.Drop? {
      DropExtends(s, a.leaf);
    }
  }

  /** Whatever is done while process `p` is polled, or by the program between runs, the executor does
      by applying what was asked for. */
  lemma InPollMatches(s: Sys, a: Action, x: Machine, p: nat)
    requires PendingInv(s) && Matches(s, x) && Enabled(s, a) && InPoll(a) && (s.current.Some? ==> s.current.value == p)
    ensures Matches(Step(s, a), E.ApplyAll(x, p, EffectsOf(s, a)))
  {
    hide Enabled, Step, SameQueue, PendingInv;
    assert x.ready == s.ready;
    hide SameTable;
    InPollExtends(s, a);
    var s' := Step(s, a);
    var dues, ids := s'.queue[|s.queue|..], s'.ready[|s.ready|..];
    var spawn: seq<E.Effect<()>> := if a.Spawn? then [E.Spawn(())] else [];
    assert s'.queue == s.queue + dues && s'.ready == s.ready + ids;
    forall k | 0 <= k < |dues| ensures dues[k].owner == p {
      assert dues[k] == s'.queue[|s.queue| + k];
    }
    ApplyCalls(x, p, s.queue, dues, ids, spawn);
    var x2 := E.Push(E.ApplyAll(x, p, Schedules(dues)), ids);
    ApplySpawn(x2, p);
    TableExtends(s, s', x, x2, a.Spawn?);
  }

  lemma ApplyCalls(x: Machine, p: nat, q: seq<Due>, dues: seq<Due>, ids: seq<nat>, rest: seq<E.Effect<()>>)
    requires SameQueue(q, x.queue, x.tickets) && forall k :: 0 <= k < |dues| ==> dues[k].owner == p
    ensures var x1 := E.ApplyAll(x, p, Schedules(dues));
            && E.ApplyAll(x, p, (Schedules(dues) + Wakes(ids)) + rest) == E.ApplyAll(E.Push(x1, ids), p, rest)
            && SameQueue(q + dues, x1.queue, x1.tickets) && x1 == x.(queue := x1.queue, tickets := x1.tickets)
  {
    hide SameQueue;
    ApplyAppend(x, p, Schedules(dues) + Wakes(ids), rest);
    ApplyAppend(x, p, Schedules(dues), Wakes(ids));
    ApplySchedules(x, p, q, dues);
    ApplyWakes(E.ApplyAll(x, p, Schedules(dues)), p, ids);
  }

  lemma TableExtends(s: Sys, s': Sys, x: Machine, x2: Machine, spawn: bool)
    requires PendingInv(s) && SameTable(s, x) && Extends(s, s', if spawn then 1 else 0)
    requires x2 == x.(queue := x2.queue, tickets := x2.tickets, ready := s'.ready, pushes := x2.pushes)
    ensures SameTable(s', if spawn then E.SpawnProcess(x2, ()) else x2)
  {
  }

  lemma ApplySpawn(x: Machine, p: nat)
    ensures E.ApplyAll(x, p, [E.Spawn(())]) == E.SpawnProcess(x, ())
    ensures E.ApplyAll(x, p, []) == x
  {
    var all: seq<E.Effect<()>> := [E.Spawn(())];
    assert all[1..] == [];
  }

  lemma {:induction false} AllInPollMatches(s: Sys, acts: seq<Action>, x: Machine)
    requires Inv(s) && Matches(s, x) && s.current.Some? && ValidRun(s, acts) && AllInPoll(acts)
    ensures Matches(Run(s, acts), E.ApplyAll(x, s.current.value, Effects(s, acts)))
    ensures Run(s, acts).current == s.current
    decreases |acts|
  {
    hide Inv, Matches, Enabled, Step, EffectsOf;
    if acts != [] {
      var s', p := Step(s, acts[0]), s.current.value;
      assert InPoll(acts[0]) && PendingInv(s) by { InvPending(s); }
      InPollMatches(s, acts[0], x, p);
      CurrentStays(s, acts[0]);
      StepKeepsInv(s, acts[0]);
      var x' := E.ApplyAll(x, p, EffectsOf(s, acts[0]));
      AllInPollMatches(s', acts[1..], x');
      ApplyAppend(x, p, EffectsOf(s, acts[0]), Effects(s', acts[1..]));
    }
  }

  lemma InvPending(s: Sys)
    requires Inv(s)
    ensures PendingInv(s)
  {
  }

  lemma CurrentStays(s: Sys, a: Action)
    requires Enabled(s, a) && InPoll(a)
    ensures Step(s, a).current == s.current
  {
    InPollExtends(s, a);
  }

  // ----- One poll of a process -----

  /** The head of the ready queue is taken from its slot. */
  lemma TakeMatches(s: Sys, x: Machine, world: nat)
    requires QueueBounds(s) && Matches(s, x) && s.current.None? && s.ready != []
    ensures var p := s.ready[0]; p < |x.slots| && (x.slots[p].Some? <==> !s.procs[p].finished)
    ensures var p := s.ready[0];
            var taken := x.(ready := x.ready[1..], polls := x.polls + [p], slots := x.slots[p := None], world := world);
            Matches(TakeNext(s), if s.procs[p].finished then taken.(slots := x.slots, world := x.world) else taken)
  {
    hide SameQueue;
    assert s.ready[0] in s.ready;
  }

  ghost function FinishEffects(s: Sys): seq<E.Effect<()>>
    requires s.current.Some? && s.current.value < |s.procs|
  {
    Wakes(Processes.Woken(s.procs[s.current.value].waker))
  }

  /** What the poll returns, and all it asked of the executor. */
  ghost function ReplyOf(s: Sys, inner: seq<Action>, last: Action): (Option<()>, seq<E.Effect<()>>)
    requires s.current.Some? && ValidRun(s, inner)
  {
    var s' := Run(s, inner);
    if last.Suspend? then (Some(()), Effects(s, inner))
    else (None, Effects(s, inner) + if s'.current.Some? && s'.current.value < |s'.procs| then FinishEffects(s') else [])
  }

  lemma SuspendMatches(s: Sys, x: Machine, on: Leaf)
    requires QueueBounds(s) && Matches(s, x) && s.current.Some?
    ensures var p := s.current.value;
            p < |x.slots| && Matches(SuspendOn(s, on), E.Admit(x.(slots := x.slots[p := Some(())])))
  {
    hide SameQueue;
    var p := s.current.value;
    var s1 := s.(current := None, procs := s.procs[p := s.procs[p].(on := on)]);
    assert Matches(s1, x.(slots := x.slots[p := Some(())]));
    AdmitMatches(s1, x.(slots := x.slots[p := Some(())]));
  }

  lemma FinishMatches(s: Sys, x: Machine)
    requires QueueBounds(s) && Matches(s, x) && s.current.Some?
    ensures var p := s.current.value;
            && p < |x.slots| == |E.ApplyAll(x, p, FinishEffects(s)).slots|
            && var after := E.ApplyAll(x, p, FinishEffects(s));
               Matches(FinishCurrent(s), E.Admit(after.(slots := after.slots[p := None])))
  {
    hide SameQueue;
    var p := s.current.value;
    var ids := Processes.Woken(s.procs[p].waker);
    ApplyWakes(x, p, ids);
    var after := E.Push(x, ids);
    var s1 := s.(current := None, procs := s.procs[p := s.procs[p].(finished := true, waker := None)],
                 ready := s.ready + ids);
    assert Matches(s1, after.(slots := after.slots[p := None]));
    AdmitMatches(s1, after.(slots := after.slots[p := None]));
  }

  /** A turn of the run loop (a whole poll; a poll of an id whose process has finished; an event), or
      what goes on between runs: something the program does itself, the admission of spawned
      processes, and the clock moved to a boundary. */
  datatype Move =
    | PollTurn(inner: seq<Action>, last: Action)
    | SkipTurn
    | PopTurn(k: nat)
    | Outside(a: Action)
    | Admission
    | Boundary(until: real)

  ghost predicate ValidMove(s: Sys, m: Move) {
    s.current.None? &&
    match m
    case PollTurn(inner, last) =>
      && s.ready != [] && s.ready[0] < |s.procs| && !s.procs[s.ready[0]].finished
      && ValidRun(TakeNext(s), inner) && AllInPoll(inner)
      && Enabled(Run(TakeNext(s), inner), last) && (last.Suspend? || last.Finish?)
    case SkipTurn => s.ready != [] && s.ready[0] < |s.procs| && s.procs[s.ready[0]].finished
    case PopTurn(k) => Enabled(s, Pop(k))
    case Outside(a) => InPoll(a) && Enabled(s, a)
    case Admission => true
    case Boundary(until) => Enabled(s, Advance(until))
  }

  ghost function After(s: Sys, m: Move): Sys
    requires ValidMove(s, m)
  {
    match m
    case PollTurn(inner, last) => Step(Run(TakeNext(s), inner), last)
    case SkipTurn => TakeNext(s)
    case PopTurn(k) => PopDue(s, k)
    case Outside(a) => Step(s, a)
    case Admission => Admit(s)
    case Boundary(until) => MoveClock(s, until)
  }

  lemma MoveKeepsInv(s: Sys, m: Move)
    requires Inv(s) && ValidMove(s, m)
    ensures Inv(After(s, m)) && After(s, m).current.None?
  {
    hide Inv;
    match m
    case PollTurn(inner, last) =>
      StepKeepsInv(s, Take);
      RunKeepsInv(TakeNext(s), inner);
      StepKeepsInv(Run(TakeNext(s), inner), last);
      InvCurrent(Run(TakeNext(s), inner));
    case SkipTurn => StepKeepsInv(s, Take);
    case PopTurn(k) => StepKeepsInv(s, Pop(k));
    case Outside(a) =>
      StepKeepsInv(s, a);
      CurrentStays(s, a);
    case Admission => StepKeepsInv(s, Drain);
    case Boundary(until) => StepKeepsInv(s, Advance(until));
  }

  lemma InvCurrent(s: Sys)
    requires Inv(s)
    ensures QueueBounds(s) && (s.current.Some? ==> s.current.value < |s.procs|)
  {
  }

  function TakenFor(x: Machine): Machine
    requires x.ready != [] && x.ready[0] < |x.slots|
  {
    var p := x.ready[0];
    x.(ready := x.ready[1..], polls := x.polls + [p], slots := x.slots[p := None], world := x.world + 1)
  }

  lemma PollHeadIs(x: Machine, body: E.Body<nat, ()>, next: Option<()>, effects: seq<E.Effect<()>>)
    requires x.ready != [] && x.ready[0] < |x.slots| && x.slots[x.ready[0]].Some?
    requires body(x.world, (), E.Context(x.ready[0], x.now, |x.slots|, x.nextId)) ==
             E.Outcome(x.world + 1, next, effects)
    ensures var p := x.ready[0]; var after := E.ApplyAll(TakenFor(x), p, effects);
            && |after.slots| == |x.slots|
            && E.PollHead(body, x) == E.Admit(after.(slots := after.slots[p := next]))
            && E.PollHead(body, x).world == x.world + 1
  {
    var p := x.ready[0];
    assert x.slots[p].value == ();
    L.ApplyAllFrame(TakenFor(x), p, effects);
    L.ApplyAllAdds(TakenFor(x), p, effects);
  }

  /** The body answers the poll as the process does. */
  ghost predicate Answers(body: E.Body<nat, ()>, s: Sys, m: Move, x: Machine)
    requires ValidMove(s, m)
  {
    m.PollTurn? ==>
      var (next, effects) := ReplyOf(TakeNext(s), m.inner, m.last);
      body(x.world, (), E.Context(s.ready[0], x.now, |x.slots|, x.nextId)) == E.Outcome(x.world + 1, next, effects)
  }

  /** When its body answers a poll as the process does, the executor's step is the whole poll. */
  lemma PollTurnIsPollHead(s: Sys, m: Move, x: Machine, body: E.Body<nat, ()>)
    requires Inv(s) && ValidMove(s, m) && m.PollTurn? && Matches(s, x) && Answers(body, s, m, x)
    ensures x.ready != [] && Matches(After(s, m), E.PollHead(body, x)) && E.PollHead(body, x).world == x.world + 1
  {
    hide Inv, Matches, TakeNext, Run, ValidRun, Enabled, Step, ReplyOf, AllInPoll, E.PollHead, E.Admit, E.ApplyAll;
    TakeRuns(s, x);
    var (next, effects) := ReplyOf(TakeNext(s), m.inner, m.last);
    PollHeadIs(x, body, next, effects);
    PolledMatches(TakeNext(s), m.inner, m.last, TakenFor(x));
  }

  lemma MatchesReady(s: Sys, x: Machine)
    requires Matches(s, x)
    ensures x.ready == s.ready
  {
  }

  lemma TakeRuns(s: Sys, x: Machine)
    requires Inv(s) && Matches(s, x) && s.current.None? && s.ready != []
    requires s.ready[0] < |s.procs| && !s.procs[s.ready[0]].finished
    ensures Inv(TakeNext(s)) && TakeNext(s).current == Some(s.ready[0])
    ensures x.ready == s.ready && s.ready[0] < |x.slots| && x.slots[s.ready[0]].Some?
    ensures Matches(TakeNext(s), TakenFor(x))
  {
    hide Inv, Matches;
    InvCurrent(s);
    TakeMatches(s, x, x.world + 1);
    MatchesReady(s, x);
    StepKeepsInv(s, Take);
  }

  lemma LastStep(s: Sys, last: Action)
    requires Enabled(s, last) && (last.Suspend? || last.Finish?)
    ensures Step(s, last) == if last.Suspend? then SuspendOn(s, last.on) else FinishCurrent(s)
  {
  }

  lemma PolledMatches(s: Sys, inner: seq<Action>, last: Action, x: Machine)
    requires Inv(s) && s.current.Some? && ValidRun(s, inner) && AllInPoll(inner) && Matches(s, x)
    requires Enabled(Run(s, inner), last) && (last.Suspend? || last.Finish?)
    ensures var p := s.current.value; var (next, effects) := ReplyOf(s, inner, last);
            var after := E.ApplyAll(x, p, effects);
            p < |after.slots| && Matches(Step(Run(s, inner), last), E.Admit(after.(slots := after.slots[p := next])))
  {
    hide Inv, Matches, Effects, Run, ValidRun, Enabled, Step, FinishEffects, E.ApplyAll, E.Admit, SuspendOn,
      FinishCurrent;
    var p, s2 := s.current.value, Run(s, inner);
    RunKeepsInv(s, inner);
    InvCurrent(s2);
    AllInPollMatches(s, inner, x);
    LastStep(s2, last);
    var x2 := E.ApplyAll(x, p, Effects(s, inner));
    if last.Suspend? {
      SuspendMatches(s2, x2, last.on);
    } else {
      ApplyAppend(x, p, Effects(s, inner), FinishEffects(s2));
      FinishMatches(s2, x2);
    }
  }

  // ----- Whole runs -----

  /** What the executor does meanwhile: a step of the run loop, or the calls made between runs. */
  ghost function Follow(body: E.Body<nat, ()>, s: Sys, m: Move, x: Machine): Machine
    requires ValidMove(s, m)
  {
    match m
    case Outside(a) => E.ApplyAll(x, 0, EffectsOf(s, a))
    case Admission => E.Admit(x)
    case Boundary(until) => E.Close(x, Some(until))
    case _ => E.Next(body, x, None)
  }

  lemma MoveMatches(s: Sys, m: Move, x: Machine, body: E.Body<nat, ()>)
    requires Inv(s) && ValidMove(s, m) && Matches(s, x) && Answers(body, s, m, x)
    ensures Matches(After(s, m), Follow(body, s, m, x))
    ensures Follow(body, s, m, x).world == x.world + if m.PollTurn? then 1 else 0
  {
    hide Inv, Step, SameQueue, PendingInv, E.PopEvent, E.Admit, E.ApplyAll, EffectsOf, Run, ValidRun, Earliest;
    InvCurrent(s);
    match m
    case PollTurn(_, _) => PollTurnIsPollHead(s, m, x, body);
    case SkipTurn => TakeMatches(s, x, x.world);
    case PopTurn(k) => PopDueMatches(s, x, k);
    case Outside(a) =>
      InPollMatches(s, a, x, 0);
      L.ApplyAllAdds(x, 0, EffectsOf(s, a));
    case Admission => AdmitMatches(s, x);
    case Boundary(until) =>
  }

  ghost predicate ValidMoves(s: Sys, ms: seq<Move>)
    decreases |ms|
  {
    ms == [] || (ValidMove(s, ms[0]) && ValidMoves(After(s, ms[0]), ms[1..]))
  }

  ghost function AfterAll(s: Sys, ms: seq<Move>): Sys
    requires ValidMoves(s, ms)
    decreases |ms|
  {
    if ms == [] then s else AfterAll(After(s, ms[0]), ms[1..])
  }

  ghost function FollowAll(body: E.Body<nat, ()>, s: Sys, ms: seq<Move>, x: Machine): Machine
    requires ValidMoves(s, ms)
    decreases |ms|
  {
    if ms == [] then x else FollowAll(body, After(s, ms[0]), ms[1..], Follow(body, s, ms[0], x))
  }

  type Reply = (Option<()>, seq<E.Effect<()>>)

  /** What the polls of a run return and ask for. */
  ghost function Replies(s: Sys, ms: seq<Move>): seq<Reply>
    requires ValidMoves(s, ms)
    decreases |ms|
  {
    if ms == [] then []
    else
      (if ms[0].PollTurn? then [ReplyOf(TakeNext(s), ms[0].inner, ms[0].last)] else [])
      + Replies(After(s, ms[0]), ms[1..])
  }

  /** A body that gives these answers, one per poll. */
  function Script(replies: seq<Reply>): E.Body<nat, ()> {
    (w: nat, p: (), c: E.Context) =>
      if w < |replies| then E.Outcome(w + 1, replies[w].0, replies[w].1) else E.Outcome(w + 1, None, [])
  }

  lemma ScriptAnswers(replies: seq<Reply>, s: Sys, m: Move, x: Machine)
    requires ValidMove(s, m)
    requires m.PollTurn? ==> x.world < |replies| && replies[x.world] == ReplyOf(TakeNext(s), m.inner, m.last)
    ensures Answers(Script(replies), s, m, x)
  {
    hide ValidMove, ReplyOf, TakeNext;
  }

  lemma {:induction false} MovesMatch(s: Sys, ms: seq<Move>, x: Machine, before: seq<Reply>)
    requires Inv(s) && Matches(s, x) && ValidMoves(s, ms) && x.world == |before|
    ensures Matches(AfterAll(s, ms), FollowAll(Script(before + Replies(s, ms)), s, ms, x))
    ensures Inv(AfterAll(s, ms))
    decreases |ms|
  {
    hide Inv, Matches, ReplyOf, Follow, After, Script, Answers, Enabled, AllInPoll;
    if ms != [] {
      var s', rest := After(s, ms[0]), ms[1..];
      var replies := before + Replies(s, ms);
      var first := if ms[0].PollTurn? then [ReplyOf(TakeNext(s), ms[0].inner, ms[0].last)] else [];
      assert replies == (before + first) + Replies(s', rest);
      assert ms[0].PollTurn? ==> replies[x.world] == first[0];
      ScriptAnswers(replies, s, ms[0], x);
      MoveMatches(s, ms[0], x, Script(replies));
      MoveKeepsInv(s, ms[0]);
      MovesMatch(s', rest, Follow(Script(replies), s, ms[0], x), before + first);
    }
  }

  lemma StartMatches(s: Sys)
    requires Start(s)
    ensures Matches(s, E.Init(0).(now := s.now))
  {
    assert Ticketed([], [], [], 0);
  }

  lemma MatchedWakes(s: Sys, x: Machine)
    requires Inv(s) && Matches(s, x) && s.current.None?
    ensures forall leaf :: Live(s, leaf) && Complete(s, leaf) ==> OwnerOf(s, leaf) in x.ready
    ensures forall i: nat :: Live(s, Timer(i)) && !Complete(s, Timer(i)) ==>
              exists e :: e in x.queue && e.time == s.timers[i].deadline && e.process == s.timers[i].owner
    ensures E.Halted(x, None) ==> forall leaf :: Live(s, leaf) ==> !leaf.Timer? && !Complete(s, leaf)
  {
    hide Bounds, PartsInv, ProcsInv, E.Sorted, Rising, Sourced, OnTime;
    var tickets :| Ticketed(s.queue, tickets, x.queue, x.tickets);
    forall leaf | Live(s, leaf) && Complete(s, leaf) ensures OwnerOf(s, leaf) in x.ready {
      assert LeafInv(s, leaf);
    }
    forall i: nat | Live(s, Timer(i)) && !Complete(s, Timer(i))
      ensures exists e :: e in x.queue && e.time == s.timers[i].deadline && e.process == s.timers[i].owner
    {
      assert LeafInv(s, Timer(i));
      var k :| 0 <= k < |s.queue| && s.queue[k] == Due(s.timers[i].deadline, s.timers[i].owner);
      assert Listing(s.queue, tickets)[k] in x.queue;
    }
  }

  // ----- Every run is made of moves -----

  ghost function ActsOf(m: Move): seq<Action> {
    match m
    case PollTurn(inner, last) => [Take] + inner + [last]
    case SkipTurn => [Take]
    case PopTurn(k) => [Pop(k)]
    case Outside(a) => [a]
    case Admission => [Drain]
    case Boundary(until) => [Advance(until)]
  }

  ghost function Flat(ms: seq<Move>): seq<Action> {
    if ms == [] then [] else ActsOf(ms[0]) + Flat(ms[1..])
  }

  /** A poll that is over at the end of a run ended with a first suspension or return. */
  lemma {:induction false} PollEnds(s: Sys, acts: seq<Action>) returns (n: nat)
    requires s.current.Some? && ValidRun(s, acts) && Run(s, acts).current.None?
    ensures n < |acts| && AllInPoll(acts[..n]) && (acts[n].Suspend? || acts[n].Finish?)
    decreases |acts|
  {
    hide Step, Enabled;
    if acts[0].Suspend? || acts[0].Finish? {
      n := 0;
    } else {
      StillPolling(s, acts[0]);
      var m := PollEnds(Step(s, acts[0]), acts[1..]);
      n := m + 1;
      assert acts[..n] == [acts[0]] + acts[1..][..m];
    }
  }

  lemma {:induction false} RunSplits(s: Sys, acts: seq<Action>, n: nat)
    requires ValidRun(s, acts) && n <= |acts|
    ensures ValidRun(s, acts[..n]) && ValidRun(Run(s, acts[..n]), acts[n..])
    ensures Run(Run(s, acts[..n]), acts[n..]) == Run(s, acts)
    decreases n
  {
    hide Step, Enabled;
    if n == 0 {
      assert acts[..0] == [] && acts[0..] == acts;
    } else {
      RunSplits(Step(s, acts[0]), acts[1..], n - 1);
      assert acts[..n][1..] == acts[1..][..n - 1] && acts[1..][n - 1..] == acts[n..];
    }
  }

  lemma StillPolling(s: Sys, a: Action)
    requires s.current.Some? && Enabled(s, a) && !a.Suspend? && !a.Finish?
    ensures InPoll(a) && Step(s, a).current.Some?
  {
    if InPoll(a) { CurrentStays(s, a); }
  }

  /** Whatever run the machine makes, if nobody is being polled at its end, it is made of moves. */
  lemma {:induction false} RunIsMadeOfMoves(s: Sys, acts: seq<Action>) returns (ms: seq<Move>)
    requires Inv(s) && s.current.None? && ValidRun(s, acts) && Run(s, acts).current.None?
    ensures ValidMoves(s, ms) && Flat(ms) == acts && AfterAll(s, ms) == Run(s, acts)
    decreases |acts|
  {
    if acts == [] {
      ms := [];
    } else {
      var m, rest := FirstMove(s, acts);
      hide Inv, Enabled, Step;
      MoveKeepsInv(s, m);
      var more := RunIsMadeOfMoves(After(s, m), rest);
      ms := [m] + more;
      assert ms[1..] == more;
    }
  }

  lemma OneStep(s: Sys, acts: seq<Action>)
    requires acts != [] && ValidRun(s, acts)
    ensures Enabled(s, acts[0]) && ValidRun(Step(s, acts[0]), acts[1..])
    ensures Run(s, acts) == Run(Step(s, acts[0]), acts[1..])
  {
  }

  lemma PollMove(s: Sys, acts: seq<Action>) returns (m: Move, rest: seq<Action>)
    requires s.current.None? && s.ready != [] && s.ready[0] < |s.procs| && !s.procs[s.ready[0]].finished
    requires ValidRun(TakeNext(s), acts) && Run(TakeNext(s), acts).current.None?
    ensures ValidMove(s, m) && [Take] + acts == ActsOf(m) + rest
    ensures ValidRun(After(s, m), rest) && Run(After(s, m), rest) == Run(TakeNext(s), acts)
  {
    var s1 := TakeNext(s);
    assert s1.current.Some?;
    hide TakeNext, Step, Enabled, Run, ValidRun, AllInPoll;
    var n := PollEnds(s1, acts);
    RunSplits(s1, acts, n);
    OneStep(Run(s1, acts[..n]), acts[n..]);
    Cut(acts, n);
    m, rest := PollTurn(acts[..n], acts[n]), acts[n + 1..];
  }

  lemma Cut(acts: seq<Action>, n: nat)
    requires n < |acts|
    ensures acts[n..][0] == acts[n] && acts[n..][1..] == acts[n + 1..]
    ensures [Take] + acts == ([Take] + acts[..n] + [acts[n]]) + acts[n + 1..]
  {
    assert acts == acts[..n] + [acts[n]] + acts[n + 1..];
  }

  lemma FirstMove(s: Sys, acts: seq<Action>) returns (m: Move, rest: seq<Action>)
    requires Inv(s) && s.current.None? && acts != [] && ValidRun(s, acts) && Run(s, acts).current.None?
    ensures ValidMove(s, m) && acts == ActsOf(m) + rest
    ensures ValidRun(After(s, m), rest) && Run(After(s, m), rest) == Run(s, acts)
  {
    hide Inv, Run, ValidRun, LeavesInv, TakeNext, PollLeaf, DropLeaf, AllInPoll;
    var a := acts[0];
    assert acts == [a] + acts[1..];
    OneStep(s, acts);
    InvCurrent(s);
    if a.Take? {
      assert s.ready[0] in s.ready;
      if s.procs[s.ready[0]].finished {
        m, rest := SkipTurn, acts[1..];
      } else {
        m, rest := PollMove(s, acts[1..]);
      }
    } else {
      rest := acts[1..];
      m := if a.Drain? then Admission
           else if a.Pop? then PopTurn(a.k)
           else if a.Advance? then Boundary(a.until)
           else Outside(a);
    }
  }

  lemma StartIdle(s: Sys)
    requires Start(s)
    ensures s.current.None?
  {
  }

  /** Every state the machine reaches between polls, the executor reaches by the same moves, with a
      body that answers each poll as the process did: same clock, same ready queue in the same order,
      same events, same processes left in the table. There no wake is lost: the owner of a complete
      leaf is in the executor's ready queue, a timer that is not complete has its event queued, and
      when the run loop halts no leaf is complete and no timer is left. */
  lemma EveryRunIsExecuted(s0: Sys, acts: seq<Action>) returns (ms: seq<Move>, x: Machine)
    requires Start(s0) && ValidRun(s0, acts) && Run(s0, acts).current.None?
    ensures ValidMoves(s0, ms) && Flat(ms) == acts
    ensures x == FollowAll(Script(Replies(s0, ms)), s0, ms, E.Init(0).(now := s0.now))
    ensures var s := Run(s0, acts);
            && Matches(s, x)
            && (forall leaf :: Live(s, leaf) && Complete(s, leaf) ==> OwnerOf(s, leaf) in x.ready)
            && (forall i: nat :: Live(s, Timer(i)) && !Complete(s, Timer(i)) ==>
                  exists e :: e in x.queue && e.time == s.timers[i].deadline && e.process == s.timers[i].owner)
            && (E.Halted(x, None) ==> forall leaf :: Live(s, leaf) ==> !leaf.Timer? && !Complete(s, leaf))
  {
    hide Start, FollowAll, AfterAll, Replies, Script, ValidMoves, Flat, Run, ValidRun, Inv, Matches;
    hide Live, Complete, OwnerOf, E.Halted;
    StartInv(s0);
    StartMatches(s0);
    StartIdle(s0);
    ms := RunIsMadeOfMoves(s0, acts);
    var x0: Machine := E.Init(0).(now := s0.now);
    var none: seq<Reply> := [];
    assert none + Replies(s0, ms) == Replies(s0, ms);
    MovesMatch(s0, ms, x0, none);
    x := FollowAll(Script(Replies(s0, ms)), s0, ms, x0);
    MatchedWakes(Run(s0, acts), x);
  }
}
