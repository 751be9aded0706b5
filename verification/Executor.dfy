/** The executor as one first-in first-out run queue and one event queue, stepped one poll or one
    event at a time; process bodies are an arbitrary deterministic function. */
module Executors {
  import opened Options

  datatype Event = Event(time: real, ticket: nat, process: nat)

  /** The total order of the event queue: by time, then by order of scheduling. */
  predicate Before(a: Event, b: Event) {
    a.time < b.time || (a.time == b.time && a.ticket < b.ticket)
  }

  /** What a process can do to the executor while it is polled. */
  datatype Effect<P> = Schedule(time: real) | Wake(process: nat) | Spawn(body: P)

  datatype Context = Context(process: nat, now: real, admitted: nat, nextId: nat)

  /** `next` is the suspended future, or None when it returned Ready. */
  datatype Outcome<W, P> = Outcome(world: W, next: Option<P>, effects: seq<Effect<P>>)

  type Body<!W, !P> = (W, P, Context) -> Outcome<W, P>

  /** `queue` is the event heap in pop order. `log` (events dispatched), `polls` (ids taken from
      the ready queue) and `pushes` (ids put there) are history. */
  datatype Sim<W, P> = Sim(now: real, queue: seq<Event>, tickets: nat, ready: seq<nat>, nextId: nat,
                           slots: seq<Option<P>>, pending: seq<(nat, P)>, world: W,
                           log: seq<Event>, polls: seq<nat>, pushes: seq<nat>)

  function Init<W, P>(world: W): Sim<W, P> {
    Sim(0.0, [], 0, [], 0, [], [], world, [], [], [])
  }

  function Insert(q: seq<Event>, e: Event): seq<Event> {
    if q == [] || Before(e, q[0]) then [e] + q else [q[0]] + Insert(q[1..], e)
  }

  function Push<W, P>(s: Sim<W, P>, ids: seq<nat>): Sim<W, P> {
    s.(ready := s.ready + ids, pushes := s.pushes + ids)
  }

  function ScheduleWakeup<W, P>(s: Sim<W, P>, time: real, process: nat): Sim<W, P> {
    s.(queue := Insert(s.queue, Event(time, s.tickets, process)), tickets := s.tickets + 1)
  }

  function SpawnProcess<W, P>(s: Sim<W, P>, body: P): Sim<W, P> {
    s.(pending := s.pending + [(s.nextId, body)], nextId := s.nextId + 1)
  }

  function Apply<W, P>(s: Sim<W, P>, process: nat, effect: Effect<P>): Sim<W, P> {
    match effect
    case Schedule(time) => ScheduleWakeup(s, time, process)
    case Wake(q) => Push(s, [q])
    case Spawn(body) => SpawnProcess(s, body)
  }

  function ApplyAll<W, P>(s: Sim<W, P>, process: nat, effects: seq<Effect<P>>): Sim<W, P>
    decreases |effects|
  {
    if effects == [] then s else ApplyAll(Apply(s, process, effects[0]), process, effects[1..])
  }

  function Fill<P>(slots: seq<Option<P>>, id: nat, body: P): seq<Option<P>> {
    var wide := if id < |slots| then slots else slots + seq(id + 1 - |slots|, _ => None);
    wide[id := Some(body)]
  }

  function FillAll<P>(slots: seq<Option<P>>, spawns: seq<(nat, P)>): seq<Option<P>>
    decreases |spawns|
  {
    if spawns == [] then slots else FillAll(Fill(slots, spawns[0].0, spawns[0].1), spawns[1..])
  }

  function Ids<P>(spawns: seq<(nat, P)>): seq<nat> {
    seq(|spawns|, i requires 0 <= i < |spawns| => spawns[i].0)
  }

  /** Moves the pending spawns into the process table and makes them ready. */
  function Admit<W, P>(s: Sim<W, P>): Sim<W, P> {
    Push(s.(slots := FillAll(s.slots, s.pending), pending := []), Ids(s.pending))
  }

  /** Polls process `id`, if its slot is occupied; the slot stays empty once it is Ready. */
  function PollProcess<W, P>(body: Body<W, P>, s: Sim<W, P>, id: nat): Sim<W, P> {
    if id < |s.slots| && s.slots[id].Some? then
      var taken := s.(slots := s.slots[id := None]);
      var o := body(s.world, s.slots[id].value, Context(id, s.now, |s.slots|, s.nextId));
      var after := ApplyAll(taken.(world := o.world), id, o.effects);
      Admit(if id < |after.slots| then after.(slots := after.slots[id := o.next]) else after)
    else s
  }

  function PollHead<W, P>(body: Body<W, P>, s: Sim<W, P>): Sim<W, P>
    requires s.ready != []
  {
    PollProcess(body, s.(ready := s.ready[1..], polls := s.polls + [s.ready[0]]), s.ready[0])
  }

  function PopEvent<W, P>(s: Sim<W, P>): Sim<W, P>
    requires s.queue != []
  {
    var e := s.queue[0];
    Admit(Push(s.(now := e.time, queue := s.queue[1..], log := s.log + [e]), [e.process]))
  }

  /** Nothing is ready and no event is due before the boundary, if there is one. */
  predicate Halted<W, P>(s: Sim<W, P>, until: Option<real>) {
    s.ready == [] && (s.queue == [] || (until.Some? && s.queue[0].time >= until.value))
  }

  function Next<W, P>(body: Body<W, P>, s: Sim<W, P>, until: Option<real>): Sim<W, P> {
    if Halted(s, until) then s
    else if s.ready != [] then PollHead(body, s)
    else PopEvent(s)
  }

  function Steps<W, P>(body: Body<W, P>, s: Sim<W, P>, until: Option<real>, n: nat): Sim<W, P>
    decreases n
  {
    if n == 0 then s else Steps(body, Next(body, s, until), until, n - 1)
  }

  /** On return, `run_until` moves the clock to the boundary but never back. */
  function Close<W, P>(s: Sim<W, P>, until: Option<real>): Sim<W, P> {
    if until.Some? && until.value > s.now then s.(now := until.value) else s
  }

  /** `run` (no boundary) or `run_until` from `s` returns in state `r`. */
  ghost predicate Returns<W, P>(body: Body<W, P>, s: Sim<W, P>, until: Option<real>, r: Sim<W, P>) {
    exists n: nat :: ReturnsAfter(body, s, until, r, n)
  }

  ghost predicate ReturnsAfter<W, P>(body: Body<W, P>, s: Sim<W, P>, until: Option<real>, r: Sim<W, P>, n: nat) {
    var h := Steps(body, Admit(s), until, n);
    Halted(h, until) && r == Close(h, until)
  }

  // ----- Discipline and invariants -----

  ghost predicate Sorted(q: seq<Event>) {
    forall i, j :: 0 <= i < j < |q| ==> Before(q[i], q[j])
  }

  /** No process schedules a wakeup in the past. */
  ghost predicate NeverInThePast<W(!new), P(!new)>(body: Body<W, P>) {
    forall w: W, p: P, c: Context, k: nat :: k < |body(w, p, c).effects| && body(w, p, c).effects[k].Schedule? ==>
      body(w, p, c).effects[k].time >= c.now
  }

  /** Processes hold wakers of admitted processes only: a waker is made at admission. */
  ghost predicate WakesAdmitted<W(!new), P(!new)>(body: Body<W, P>) {
    forall w: W, p: P, c: Context, k: nat :: k < |body(w, p, c).effects| && body(w, p, c).effects[k].Wake? ==>
      body(w, p, c).effects[k].process < c.admitted
  }

  /** Events are queued and logged in the (time, ticket) order, everything logged comes before
      everything queued, and the clock lies between. */
  ghost predicate OrderInv<W, P>(s: Sim<W, P>) {
    && Sorted(s.log + s.queue)
    && (forall e :: e in s.queue ==> s.now <= e.time && e.ticket < s.tickets)
    && (forall e :: e in s.log ==> e.time <= s.now && e.ticket < s.tickets)
  }

  /** Ids are handed out densely: the admitted ones index the table and the pending ones follow;
      ids in the ready queue and in events index the table. Whatever was put into the ready queue
      has been taken out in that order, or is still there. */
  ghost predicate IdsInv<W, P>(s: Sim<W, P>) {
    && s.nextId == |s.slots| + |s.pending|
    && (forall k :: 0 <= k < |s.pending| ==> s.pending[k].0 == |s.slots| + k)
    && (forall id :: id in s.ready ==> id < |s.slots|)
    && (forall e :: e in s.queue ==> e.process < |s.slots|)
    && s.polls + s.ready == s.pushes
  }
}
