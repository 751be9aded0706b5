/** The executor as it is written: a state object updated in place, whose run loops take the ready
    queue in whole batches. Every run is proved to be a run of the first-in first-out machine. */
module SimEnvs {
  import opened Options
  import opened Executors
  import opened ExecutorLaws

  /** The machine was still not halted after at least `fuel` steps. */
  ghost predicate Unfinished<W, P>(body: Body<W, P>, s: Sim<W, P>, until: Option<real>, fuel: nat) {
    exists n: nat :: UnfinishedAfter(body, s, until, fuel, n)
  }

  ghost predicate UnfinishedAfter<W, P>(body: Body<W, P>, s: Sim<W, P>, until: Option<real>, fuel: nat, n: nat) {
    n >= fuel && !Halted(Steps(body, Admit(s), until, n), until)
  }

  /** The fuel bound loses nothing: a run that returns does so for every large enough bound. */
  lemma EnoughFuel<W, P>(body: Body<W, P>, s: Sim<W, P>, until: Option<real>, r: Sim<W, P>) returns (fuel: nat)
    requires Returns(body, s, until, r)
    ensures forall f: nat :: f >= fuel ==> !Unfinished(body, s, until, f)
  {
    var m: nat :| ReturnsAfter(body, s, until, r, m);
    fuel := m;
    forall f: nat, n: nat | f >= fuel && n >= f ensures !UnfinishedAfter(body, s, until, f, n) {
      StepsAdd(body, Admit(s), until, m, n - m);
      HaltedStays(body, Steps(body, Admit(s), until, m), until, n - m);
    }
  }

  lemma CloseKeepsIds<W, P>(s: Sim<W, P>, until: Option<real>)
    requires IdsInv(s)
    ensures IdsInv(Close(s, until))
  {
  }

  class SimEnv<W(!new), P(!new)> {
    const body: Body<W, P>
    var currentTime: real
    var eventQueue: seq<Event>
    var seqCounter: nat
    var readyQueue: seq<nat>
    var nextProcessId: nat
    var processes: seq<Option<P>>
    var pendingSpawns: seq<(nat, P)>
    var world: W
    ghost var log: seq<Event>
    ghost var polls: seq<nat>
    ghost var pushes: seq<nat>

    /** The machine state, when `rest` is what remains of the batch being polled. */
    ghost function View(rest: seq<nat>): Sim<W, P>
      reads this
    {
      Sim(currentTime, eventQueue, seqCounter, rest + readyQueue, nextProcessId, processes, pendingSpawns, world,
          log, polls, pushes)
    }

    ghost predicate Valid(rest: seq<nat>)
      reads this
    {
      WakesAdmitted(body) && IdsInv(View(rest))
    }

    constructor (body: Body<W, P>, world: W)
      requires WakesAdmitted(body)
      ensures this.body == body && Valid([]) && View([]) == Init(world)
    {
      this.body := body;
      this.world := world;
      currentTime, eventQueue, seqCounter, readyQueue := 0.0, [], 0, [];
      nextProcessId, processes, pendingSpawns := 0, [], [];
      log, polls, pushes := [], [], [];
      new;
      assert View([]) == Init(world);
    }

    method Schedule(time: real, process: nat, ghost rest: seq<nat>)
      modifies this
      ensures View(rest) == ScheduleWakeup(old(View(rest)), time, process)
    {
      var ticket := seqCounter;
      seqCounter := seqCounter + 1;
      eventQueue := Insert(eventQueue, Event(time, ticket, process));
    }

    method Wake(process: nat, ghost rest: seq<nat>)
      modifies this
      ensures View(rest) == Push(old(View(rest)), [process])
    {
      readyQueue := readyQueue + [process];
      pushes := pushes + [process];
      assert rest + readyQueue == (rest + old(readyQueue)) + [process];
    }

    method SpawnBody(p: P, ghost rest: seq<nat>)
      modifies this
      ensures View(rest) == SpawnProcess(old(View(rest)), p)
    {
      var id := nextProcessId;
      nextProcessId := nextProcessId + 1;
      pendingSpawns := pendingSpawns + [(id, p)];
    }

    /** What a process does to the executor while it runs, in order. */
    method Perform(process: nat, effects: seq<Effect<P>>, ghost rest: seq<nat>)
      modifies this
      ensures View(rest) == ApplyAll(old(View(rest)), process, effects)
    {
      var k := 0;
      while k < |effects|
        invariant 0 <= k <= |effects|
        invariant ApplyAll(View(rest), process, effects[k..]) == ApplyAll(old(View(rest)), process, effects)
      {
        assert effects[k..][1..] == effects[k + 1..];
        match effects[k] {
          case Schedule(time) => Schedule(time, process, rest);
          case Wake(q) => Wake(q, rest);
          case Spawn(p) => SpawnBody(p, rest);
        }
        k := k + 1;
      }
    }

    /** Moves all pending spawns into the process table, growing it as needed, and marks them
        ready; does nothing when there are none. */
    method DrainPendingSpawns(ghost rest: seq<nat>)
      modifies this
      ensures View(rest) == Admit(old(View(rest)))
    {
      var spawns := pendingSpawns;
      pendingSpawns := [];
      if spawns == [] {
        AdmitNothing(View(rest));
        return;
      }
      var ids := [];
      var k := 0;
      while k < |spawns|
        invariant 0 <= k <= |spawns| && ids == Ids(spawns)[..k]
        invariant FillAll(processes, spawns[k..]) == FillAll(old(processes), spawns)
        invariant View(rest) == old(View(rest)).(slots := processes, pending := [])
      {
        var (id, p) := spawns[k];
        ghost var before := processes;
        assert spawns[k..][1..] == spawns[k + 1..];
        if id >= |processes| {
          processes := processes + seq(id + 1 - |processes|, _ => None);
        }
        processes := processes[id := Some(p)];
        assert processes == Fill(before, id, p);
        ids := ids + [id];
        k := k + 1;
      }
      readyQueue := readyQueue + ids;
      pushes := pushes + ids;
      assert rest + readyQueue == (rest + old(readyQueue)) + ids;
    }

    /** Takes the process out of its slot, polls it, and puts it back unless it is done. */
    method PollEntry(id: nat, ghost rest: seq<nat>)
      requires Valid([id] + rest)
      modifies this
      ensures Valid(rest)
      ensures View(rest) == PollHead(body, old(View([id] + rest)))
    {
      ghost var start := View([id] + rest);
      assert start.ready[0] == id && start.ready[1..] == rest + readyQueue && id in start.ready && id < |processes|;
      PollKeepsIds(body, start);
      hide IdsInv, WakesAdmitted, Admit, ApplyAll;
      polls := polls + [id];
      var entry := processes[id];
      if entry.Some? {
        processes := processes[id := None];
        var o := body(world, entry.value, Context(id, currentTime, |processes|, nextProcessId));
        world := o.world;
        ghost var taken := View(rest);
        Perform(id, o.effects, rest);
        ApplyAllFrame(taken, id, o.effects);
        assert o.next.None? ==> processes == processes[id := o.next];
        if o.next.Some? {
          processes := processes[id := o.next];
        }
        DrainPendingSpawns(rest);
      }
    }

    /** Polls whole batches until the ready queue is empty (or `fuel` batches are used up). */
    method PollReady(ghost until: Option<real>, fuel: nat) returns (left: nat, ghost n: nat)
      requires Valid([])
      modifies this
      ensures Valid([]) && View([]) == Steps(body, old(View([])), until, n)
      ensures left <= fuel <= left + n && (readyQueue != [] ==> left == 0)
    {
      hide IdsInv, PollHead, WakesAdmitted;
      left, n := fuel, 0;
      while readyQueue != [] && left > 0
        invariant Valid([]) && View([]) == Steps(body, old(View([])), until, n)
        invariant left <= fuel <= left + n
        decreases left
      {
        label Batch:
        var ready := readyQueue;
        readyQueue := [];
        assert View(ready[0..]) == old@Batch(View([])) by { assert ready[0..] + [] == [] + ready; }
        var k := 0;
        while k < |ready|
          invariant 0 <= k <= |ready| && Valid(ready[k..])
          invariant View(ready[k..]) == Steps(body, old(View([])), until, n + k)
        {
          ghost var s := View(ready[k..]);
          assert ready[k..] == [ready[k]] + ready[k + 1..];
          PollEntry(ready[k], ready[k + 1..]);
          StepsAdd(body, old(View([])), until, n + k, 1);
          assert Steps(body, s, until, 1) == Next(body, s, until);
          k := k + 1;
        }
        n := n + |ready|;
        left := left - 1;
        assert ready[k..] == [];
      }
    }

    /** Moves the clock to the least event, wakes its process, and admits any pending spawns. */
    method Dispatch()
      requires Valid([]) && eventQueue != []
      modifies this
      ensures Valid([]) && View([]) == PopEvent(old(View([])))
    {
      PopKeepsIds(View([]));
      var e := eventQueue[0];
      eventQueue := eventQueue[1..];
      currentTime := e.time;
      log := log + [e];
      Wake(e.process, []);
      DrainPendingSpawns([]);
    }

    /** `run`: until the event queue is empty. */
    method Run(fuel: nat) returns (ok: bool)
      requires Valid([])
      modifies this
      ensures Valid([])
      ensures ok ==> Returns(body, old(View([])), None, View([]))
      ensures !ok ==> Unfinished(body, old(View([])), None, fuel)
    {
      hide IdsInv, PollHead, PopEvent, WakesAdmitted, Admit;
      ghost var s := View([]);
      AdmitKeepsIds(s);
      DrainPendingSpawns([]);
      var left: nat, n: nat := PollReady(None, fuel);
      while eventQueue != [] && left > 0
        invariant Valid([]) && View([]) == Steps(body, Admit(s), None, n)
        invariant left + n >= fuel && (readyQueue != [] ==> left == 0)
        decreases left
      {
        ghost var before := View([]);
        Dispatch();
        StepsAdd(body, Admit(s), None, n, 1);
        assert Steps(body, before, None, 1) == Next(body, before, None);
        ghost var m: nat;
        left, m := PollReady(None, left - 1);
        StepsAdd(body, Admit(s), None, n + 1, m);
        n := n + 1 + m;
      }
      ok := readyQueue == [] && eventQueue == [];
      if ok {
        assert ReturnsAfter(body, s, None, View([]), n);
      } else {
        assert UnfinishedAfter(body, s, None, fuel, n);
      }
    }

    /** `run_until`: until no event is due before the boundary; then the clock is moved to the
        boundary, but never back. */
    method RunUntil(until: real, fuel: nat) returns (ok: bool)
      requires Valid([])
      modifies this
      ensures Valid([])
      ensures ok ==> Returns(body, old(View([])), Some(until), View([]))
      ensures !ok ==> Unfinished(body, old(View([])), Some(until), fuel)
    {
      hide IdsInv, PollHead, PopEvent, WakesAdmitted, Admit;
      ghost var s := View([]);
      AdmitKeepsIds(s);
      DrainPendingSpawns([]);
      var left: nat, n: nat := PollReady(Some(until), fuel);
      while left > 0 && eventQueue != [] && eventQueue[0].time < until
        invariant Valid([]) && View([]) == Steps(body, Admit(s), Some(until), n)
        invariant left + n >= fuel && (readyQueue != [] ==> left == 0)
        decreases left
      {
        ghost var before := View([]);
        Dispatch();
        StepsAdd(body, Admit(s), Some(until), n, 1);
        assert Steps(body, before, Some(until), 1) == Next(body, before, Some(until));
        ghost var m: nat;
        left, m := PollReady(Some(until), left - 1);
        StepsAdd(body, Admit(s), Some(until), n + 1, m);
        n := n + 1 + m;
      }
      ok := readyQueue == [] && (eventQueue == [] || eventQueue[0].time >= until);
      if ok {
        ghost var h := View([]);
        currentTime := if until >= currentTime then until else currentTime;
        assert View([]) == Close(h, Some(until));
        CloseKeepsIds(h, Some(until));
        assert ReturnsAfter(body, s, Some(until), View([]), n);
      } else {
        assert UnfinishedAfter(body, s, Some(until), fuel, n);
      }
    }
  }
}
