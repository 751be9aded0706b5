/** The executor and its leaf futures as one machine whose steps are the polls, drops, wakes,
    spawns and event pops of a simulation; and the theorem that no wake is ever lost. */
module Systems {
  import opened Options
  import opened Events
  import Combinators
  import Processes
  import Pools
  import Containers
  import Preemption

  /** Something a process can wait for. */
  datatype Leaf =
    | Timer(i: nat)
    | Signal(i: nat)
    | Child(i: nat)
    | Unit(pool: nat, i: nat)
    | Flow(tank: nat, i: nat)
    | Lease(shop: nat, i: nat)

  /** A leaf comes into being when it is first polled: before that a future has no effect on the
      kernel, and may be kept, moved or dropped. `over`: it was Ready or has been dropped. */
  datatype TimerRec = TimerRec(owner: nat, deadline: real, scheduled: bool, over: bool)
  datatype SignalRec = SignalRec(owner: nat, event: nat, armed: bool, over: bool)
  datatype ChildRec = ChildRec(owner: nat, child: nat, armed: bool, over: bool)

  /** `waker` is the waker slot of the process's handle; `on` records a leaf it was suspended on. */
  datatype Proc = Proc(started: bool, finished: bool, waker: Option<nat>, on: Leaf)

  datatype Due = Due(time: real, owner: nat)

  /** `queue` is the event queue in order of insertion. `current` is the process taken out of its
      slot for polling, and `polled` the leaves that were Pending in this poll of it. */
  datatype Sys = Sys(now: real, queue: seq<Due>, ready: seq<nat>, pending: seq<nat>,
                     current: Option<nat>, polled: set<Leaf>, procs: seq<Proc>,
                     timers: seq<TimerRec>, signals: seq<SignalRec>, children: seq<ChildRec>,
                     events: seq<Latch>, pools: seq<Pools.Pool>, tanks: seq<Containers.Tank>,
                     shops: seq<Preemption.State>)

  datatype Action =
    | Drain
    | Take
    | Suspend(on: Leaf)
    | Finish
    | Pop(k: nat)
    | Advance(until: real)
    | Spawn
    | Join(child: nat)
    | NewTimer(deadline: real)
    | NewEvent
    | Listen(event: nat)
    | Fire(event: nat)
    | Request(pool: nat, key: nat)
    | DropGuard(pool: nat, i: nat)
    | Ask(tank: nat, kind: Containers.Kind, amount: real)
    | Bid(shop: nat, priority: nat)
    | DropLease(shop: nat, id: nat)
    | Poll(leaf: Leaf)
    | Drop(leaf: Leaf)

  predicate Exists(s: Sys, leaf: Leaf) {
    match leaf
    case Timer(i) => i < |s.timers|
    case Signal(i) => i < |s.signals| && s.signals[i].event < |s.events|
    case Child(i) => i < |s.children| && s.children[i].child < |s.procs|
    case Unit(k, i) => k < |s.pools| && i < |s.pools[k].reqs|
    case Flow(k, i) => k < |s.tanks| && i < |s.tanks[k].reqs|
    case Lease(k, i) => k < |s.shops| && i < |s.shops[k].reqs|
  }

  function OwnerOf(s: Sys, leaf: Leaf): nat
    requires Exists(s, leaf)
  {
    match leaf
    case Timer(i) => s.timers[i].owner
    case Signal(i) => s.signals[i].owner
    case Child(i) => s.children[i].owner
    case Unit(k, i) => s.pools[k].reqs[i].owner
    case Flow(k, i) => s.tanks[k].reqs[i].owner
    case Lease(k, i) => s.shops[k].reqs[i].owner
  }

  /** Neither Ready yet nor dropped. */
  predicate Live(s: Sys, leaf: Leaf) {
    Exists(s, leaf) &&
    match leaf
    case Timer(i) => !s.timers[i].over
    case Signal(i) => !s.signals[i].over
    case Child(i) => !s.children[i].over
    case Unit(k, i) => !s.pools[k].reqs[i].consumed && !s.pools[k].reqs[i].dropped
    case Flow(k, i) => !s.tanks[k].reqs[i].finished && !s.tanks[k].reqs[i].dropped
    case Lease(k, i) => !s.shops[k].reqs[i].consumed && !s.shops[k].reqs[i].dropped
  }

  /** Polled before, so its waker is or was registered. */
  predicate Armed(s: Sys, leaf: Leaf)
    requires Exists(s, leaf)
  {
    match leaf
    case Timer(i) => s.timers[i].scheduled
    case Signal(i) => s.signals[i].armed
    case Child(i) => s.children[i].armed
    case Unit(k, i) => s.pools[k].reqs[i].registered
    case Flow(k, i) => s.tanks[k].reqs[i].registered
    case Lease(k, i) => s.shops[k].reqs[i].registered
  }

  /** What it waits for has happened: the event was popped or fired, the child has a result, the
      unit was granted, the amount committed. */
  predicate Complete(s: Sys, leaf: Leaf)
    requires Exists(s, leaf)
  {
    match leaf
    case Timer(i) => s.timers[i].scheduled && Due(s.timers[i].deadline, s.timers[i].owner) !in s.queue
    case Signal(i) => s.events[s.signals[i].event].fired
    case Child(i) => s.procs[s.children[i].child].finished
    case Unit(k, i) => s.pools[k].reqs[i].granted
    case Flow(k, i) => s.tanks[k].reqs[i].done
    case Lease(k, i) => s.shops[k].reqs[i].granted
  }

  /** The process is in the ready queue, or is being polled and has not polled this leaf yet. */
  predicate Awake(s: Sys, leaf: Leaf)
    requires Exists(s, leaf)
  {
    var p := OwnerOf(s, leaf);
    p in s.ready || (s.current == Some(p) && leaf !in s.polled)
  }

  predicate Mine(s: Sys, leaf: Leaf) {
    Live(s, leaf) && s.current == Some(OwnerOf(s, leaf))
  }

  /** The earliest entry, first inserted among equals. */
  ghost predicate Earliest(q: seq<Due>, k: nat) {
    && k < |q|
    && (forall j :: 0 <= j < |q| ==> q[k].time <= q[j].time)
    && (forall j :: 0 <= j < k ==> q[k].time < q[j].time)
  }

  /** A process polls and drops only its own leaves, and returns Pending only after polling every
      leaf it has begun to poll and still owns, as sequential awaits and the combinators do. A timer
      is first polled no later than its deadline. A handle has one awaiter. */
  ghost predicate Enabled(s: Sys, a: Action) {
    match a
    case Drain => s.current.None?
    case Take => s.current.None? && s.ready != []
    case Suspend(on) =>
      && s.current.Some? && Mine(s, on)
      && forall leaf :: Mine(s, leaf) ==> leaf in s.polled
    case Finish => s.current.Some? && forall leaf :: !Mine(s, leaf)
    case Pop(k) => s.current.None? && s.ready == [] && s.pending == [] && Earliest(s.queue, k)
    case Advance(until) =>
      && s.current.None? && s.ready == [] && s.pending == [] && s.now <= until
      && forall d :: d in s.queue ==> until <= d.time
    case Spawn => true
    case Join(child) =>
      && s.current.Some? && child < |s.procs|
      && forall i :: 0 <= i < |s.children| ==> s.children[i].child != child
    case NewTimer(deadline) => s.current.Some? && deadline >= s.now
    case NewEvent => true
    case Listen(e) => s.current.Some? && e < |s.events|
    case Fire(e) => e < |s.events| && !s.events[e].fired
    case Request(k, _) => s.current.Some? && k < |s.pools|
    case DropGuard(k, i) => k < |s.pools| && Pools.Enabled(s.pools[k], Pools.DropGuard(i))
    case Bid(k, _) => s.current.Some? && k < |s.shops|
    case DropLease(k, id) => k < |s.shops| && Preemption.Enabled(s.shops[k], Preemption.DropGuard(id))
    case Ask(k, kind, amount) => s.current.Some? && k < |s.tanks| && 0.0 < amount <= s.tanks[k].capacity
    case Poll(leaf) => Mine(s, leaf)
    case Drop(leaf) => Mine(s, leaf)
  }

  function PoolStep(s: Sys, k: nat, a: Pools.Action): Sys
    requires k < |s.pools| && Pools.Enabled(s.pools[k], a)
  {
    var o := Pools.Step(s.pools[k], a);
    s.(pools := s.pools[k := o.pool],
       ready := s.ready + if o.woken.Some? && o.woken.value < |o.pool.reqs|
                          then [o.pool.reqs[o.woken.value].owner] else [],
       polled := s.polled + if a.Poll? && !o.ready then {Unit(k, a.i)} else {})
  }

  function TankStep(s: Sys, k: nat, a: Containers.Action): Sys
    requires k < |s.tanks| && Containers.Enabled(s.tanks[k], a)
  {
    var t := Containers.Step(s.tanks[k], a);
    s.(tanks := s.tanks[k := t],
       ready := s.ready + if |s.tanks[k].wakes| <= |t.wakes| then t.wakes[|s.tanks[k].wakes|..] else [],
       polled := s.polled + if a.Poll? && a.i < |t.reqs| && !t.reqs[a.i].finished then {Flow(k, a.i)} else {})
  }

  function ShopStep(s: Sys, k: nat, a: Preemption.Action): Sys
    requires k < |s.shops| && Preemption.Enabled(s.shops[k], a)
  {
    var x := Preemption.Step(s.shops[k], a);
    s.(shops := s.shops[k := x],
       ready := s.ready + Preemption.Wakes(x.reqs, Preemption.Woken(s.shops[k], a)),
       polled := s.polled + if a.Poll? && a.i < |x.reqs| && !x.reqs[a.i].consumed then {Lease(k, a.i)} else {})
  }

  /** The entries that calls of `schedule_wakeup` add for a process. */
  function Dues(times: seq<real>, owner: nat): seq<Due> {
    seq(|times|, k requires 0 <= k < |times| => Due(times[k], owner))
  }

  function PollTimer(s: Sys, i: nat): Sys
    requires i < |s.timers|
  {
    var t := s.timers[i];
    var (arm, ready, calls) := Combinators.PollTimeout(Combinators.Arm(t.deadline, t.scheduled), s.now);
    s.(queue := s.queue + Dues(calls, t.owner), timers := s.timers[i := t.(scheduled := arm.scheduled, over := ready)],
       polled := s.polled + if ready then {} else {Timer(i)})
  }

  function PollSignal(s: Sys, i: nat): Sys
    requires Exists(s, Signal(i))
  {
    var g := s.signals[i];
    var (e, ready) := PollLatch(s.events[g.event], g.owner);
    s.(signals := s.signals[i := g.(armed := true, over := ready)], events := s.events[g.event := e],
       polled := s.polled + if ready then {} else {Signal(i)})
  }

  function PollChild(s: Sys, i: nat): Sys
    requires Exists(s, Child(i))
  {
    var h := s.children[i];
    var p := s.procs[h.child];
    var (waker, ready) := Processes.PollSlot(p.finished, p.waker, h.owner);
    s.(children := s.children[i := h.(armed := true, over := ready)], procs := s.procs[h.child := p.(waker := waker)],
       polled := s.polled + if ready then {} else {Child(i)})
  }

  function PollLeaf(s: Sys, leaf: Leaf): Sys
    requires Live(s, leaf)
  {
    match leaf
    case Timer(i) => PollTimer(s, i)
    case Signal(i) => PollSignal(s, i)
    case Child(i) => PollChild(s, i)
    case Unit(k, i) => PoolStep(s, k, Pools.Poll(i))
    case Flow(k, i) => TankStep(s, k, Containers.Poll(i))
    case Lease(k, i) => ShopStep(s, k, Preemption.Poll(i))
  }

  function DropLeaf(s: Sys, leaf: Leaf): Sys
    requires Live(s, leaf)
  {
    match leaf
    case Timer(i) => s.(timers := s.timers[i := s.timers[i].(over := true)])
    case Signal(i) => s.(signals := s.signals[i := s.signals[i].(over := true)])
    case Child(i) => s.(children := s.children[i := s.children[i].(over := true)])
    case Unit(k, i) => PoolStep(s, k, Pools.DropRequest(i))
    case Flow(k, i) => TankStep(s, k, Containers.DropRequest(i))
    case Lease(k, i) => ShopStep(s, k, Preemption.DropRequest(i))
  }

  function Admit(s: Sys): Sys {
    s.(ready := s.ready + s.pending, pending := [])
  }

  /** The head of the ready queue is taken out of its slot, unless it has finished. */
  function TakeNext(s: Sys): Sys
    requires s.ready != []
  {
    var p := s.ready[0];
    var s' := s.(ready := s.ready[1..]);
    if p < |s.procs| && !s.procs[p].finished
    then s'.(current := Some(p), polled := {}, procs := s.procs[p := s.procs[p].(started := true)])
    else s'
  }

  /** The running process returns Pending and is put back; its spawns are admitted. */
  function SuspendOn(s: Sys, on: Leaf): Sys
    requires s.current.Some?
  {
    var p := s.current.value;
    Admit(s.(current := None, procs := if p < |s.procs| then s.procs[p := s.procs[p].(on := on)] else s.procs))
  }

  /** The running process returns Ready: its slot stays empty and whoever awaits it is woken. */
  function FinishCurrent(s: Sys): Sys
    requires s.current.Some?
  {
    var p := s.current.value;
    if p < |s.procs| then
      Admit(s.(current := None, procs := s.procs[p := s.procs[p].(finished := true, waker := None)],
               ready := s.ready + Processes.Woken(s.procs[p].waker)))
    else s
  }

  function PopDue(s: Sys, k: nat): Sys
    requires k < |s.queue|
  {
    s.(now := s.queue[k].time, queue := s.queue[..k] + s.queue[k + 1..], ready := s.ready + [s.queue[k].owner])
  }

  /** `run_until` returns: the clock moves on to the boundary. */
  function MoveClock(s: Sys, until: real): Sys {
    s.(now := until)
  }

  function SpawnProc(s: Sys): Sys {
    s.(procs := s.procs + [Proc(false, false, None, Timer(0))], pending := s.pending + [|s.procs|])
  }

  /** The running process polls the handle of `child` for the first time. */
  function AddChild(s: Sys, child: nat): Sys
    requires s.current.Some?
  {
    s.(children := s.children + [ChildRec(s.current.value, child, false, false)])
  }

  function AddTimer(s: Sys, deadline: real): Sys
    requires s.current.Some?
  {
    s.(timers := s.timers + [TimerRec(s.current.value, deadline, false, false)])
  }

  function AddEvent(s: Sys): Sys {
    s.(events := s.events + [Latch(false, [])])
  }

  function AddSignal(s: Sys, e: nat): Sys
    requires s.current.Some?
  {
    s.(signals := s.signals + [SignalRec(s.current.value, e, false, false)])
  }

  function FireEvent(s: Sys, e: nat): Sys
    requires e < |s.events|
  {
    var (latch, woken) := FireLatch(s.events[e]);
    s.(events := s.events[e := latch], ready := s.ready + woken)
  }

  ghost function Step(s: Sys, a: Action): Sys
    requires Enabled(s, a)
  {
    match a
    case Drain => Admit(s)
    case Take => TakeNext(s)
    case Suspend(on) => SuspendOn(s, on)
    case Finish => FinishCurrent(s)
    case Pop(k) => PopDue(s, k)
    case Advance(until) => MoveClock(s, until)
    case Spawn => SpawnProc(s)
    case Join(child) => AddChild(s, child)
    case NewTimer(deadline) => AddTimer(s, deadline)
    case NewEvent => AddEvent(s)
    case Listen(e) => AddSignal(s, e)
    case Fire(e) => FireEvent(s, e)
    case Request(k, key) => PoolStep(s, k, Pools.New(s.current.value, key))
    case DropGuard(k, i) => PoolStep(s, k, Pools.DropGuard(i))
    case Bid(k, priority) => ShopStep(s, k, Preemption.New(s.current.value, priority))
    case DropLease(k, id) => ShopStep(s, k, Preemption.DropGuard(id))
    case Ask(k, kind, amount) => TankStep(s, k, Containers.New(s.current.value, kind, amount))
    case Poll(leaf) => PollLeaf(s, leaf)
    case Drop(leaf) => DropLeaf(s, leaf)
  }

  // ----- The invariant -----

  /** Processes beyond this one are spawned but not in the process table yet. */
  function Admitted(s: Sys): int {
    |s.procs| - |s.pending|
  }

  ghost predicate PendingInv(s: Sys) {
    && Admitted(s) >= 0
    && (forall k :: 0 <= k < |s.pending| ==> s.pending[k] == Admitted(s) + k)
    && (forall p :: Admitted(s) <= p < |s.procs| ==> !s.procs[p].started && !s.procs[p].finished)
  }

  ghost predicate QueueBounds(s: Sys) {
    && PendingInv(s)
    && (forall p :: p in s.ready ==> p < Admitted(s))
    && (s.current.Some? ==> s.current.value < Admitted(s) && !s.procs[s.current.value].finished
                            && s.procs[s.current.value].started)
    && (forall d :: d in s.queue ==> d.owner < Admitted(s) && s.now <= d.time)
    && (forall p :: 0 <= p < |s.procs| && s.procs[p].waker.Some? ==> s.procs[p].waker.value < Admitted(s))
  }

  ghost predicate References(s: Sys) {
    && (forall i :: 0 <= i < |s.signals| ==> s.signals[i].event < |s.events|)
    && (forall i :: 0 <= i < |s.children| ==> s.children[i].child < |s.procs|)
    && (forall i, j :: 0 <= i < j < |s.children| ==> s.children[i].child != s.children[j].child)
    && (forall e, p :: 0 <= e < |s.events| && p in s.events[e].waiters ==> p < Admitted(s))
  }

  ghost predicate TableBounds(s: Sys) {
    References(s) && forall leaf :: leaf in s.polled ==> Exists(s, leaf)
  }

  ghost predicate RequestBounds(s: Sys) {
    && (forall k, i :: 0 <= k < |s.pools| && 0 <= i < |s.pools[k].reqs| ==> s.pools[k].reqs[i].owner < Admitted(s))
    && (forall k, i :: 0 <= k < |s.tanks| && 0 <= i < |s.tanks[k].reqs| ==> s.tanks[k].reqs[i].owner < Admitted(s))
    && (forall k, i :: 0 <= k < |s.shops| && 0 <= i < |s.shops[k].reqs| ==> s.shops[k].reqs[i].owner < Admitted(s))
  }

  ghost predicate Bounds(s: Sys) {
    QueueBounds(s) && TableBounds(s) && RequestBounds(s)
  }

  ghost predicate PartsInv(s: Sys) {
    && (forall k :: 0 <= k < |s.pools| ==> Pools.Inv(s.pools[k]))
    && (forall k :: 0 <= k < |s.tanks| ==> Containers.Inv(s.tanks[k]))
    && (forall k :: 0 <= k < |s.shops| ==> Preemption.Inv(s.shops[k]))
  }

  /** A waker registered with an event or with a child is still there. */
  ghost predicate Sourced(s: Sys, leaf: Leaf)
    requires Exists(s, leaf)
  {
    match leaf
    case Signal(i) => s.signals[i].owner in s.events[s.signals[i].event].waiters
    case Child(i) => s.procs[s.children[i].child].waker == Some(s.children[i].owner)
    case _ => true
  }

  /** The clock never passes the deadline of a live timer. */
  ghost predicate OnTime(s: Sys, leaf: Leaf)
    requires Exists(s, leaf)
  {
    leaf.Timer? ==>
      s.now <= s.timers[leaf.i].deadline && (Complete(s, leaf) ==> s.now == s.timers[leaf.i].deadline)
  }

  /** A live leaf belongs to an unfinished process that has run. If it is complete, its owner is
      about to poll it: no wake is lost. If its owner is not running, or has polled it in this
      poll, its waker was registered; and what is registered and not complete can still wake. */
  ghost predicate LeafInv(s: Sys, leaf: Leaf)
    requires Exists(s, leaf)
  {
    var p := OwnerOf(s, leaf);
    && p < |s.procs| && s.procs[p].started && !s.procs[p].finished
    && (Complete(s, leaf) ==> Awake(s, leaf))
    && (s.current != Some(p) || leaf in s.polled ==> Armed(s, leaf))
    && (Armed(s, leaf) && !Complete(s, leaf) ==> Sourced(s, leaf))
    && OnTime(s, leaf)
  }

  ghost predicate LeavesInv(s: Sys) {
    forall leaf :: Live(s, leaf) ==> LeafInv(s, leaf)
  }

  /** A process is new and admitted, or finished, or running, or suspended on a live leaf. */
  ghost predicate ProcsInv(s: Sys) {
    forall p :: 0 <= p < |s.procs| && !s.procs[p].finished && s.current != Some(p) ==>
      if s.procs[p].started then Live(s, s.procs[p].on) && OwnerOf(s, s.procs[p].on) == p
      else p in s.ready || p in s.pending
  }

  ghost predicate Inv(s: Sys) {
    Bounds(s) && PartsInv(s) && LeavesInv(s) && ProcsInv(s)
  }
}
