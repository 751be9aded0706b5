/** `any_of` and `all_of` over timeouts, run by the executor among arbitrary other processes: the
    first resolves at the least deadline, the second at the greatest, at no other time. */
module CombinatorLaws {
  import opened Options
  import opened Executors
  import opened ExecutorLaws
  import opened Combinators

  datatype Kind = AnyKind | AllKind

  type Delay = d: real | d >= 0.0 witness 0.0
  type Waits = arms: seq<Arm> | forall k :: 0 <= k < |arms| ==> arms[k].scheduled witness []

  /** `Fresh` creates one timeout per delay and awaits the combinator over them; `Waiting` is that
      process suspended; `User` is any other process. */
  datatype Proc<Q> = User(q: Q) | Fresh(kind: Kind, delays: seq<Delay>) | Waiting(kind: Kind, arms: Waits)

  /** `resolved` records who finished a combinator, and when. */
  datatype World<W> = World(user: W, resolved: seq<(nat, real)>)

  type UserBody<!W, !Q> = (W, Q, Context) -> Outcome<W, Proc<Q>>

  function Create(delays: seq<Delay>, now: real): seq<Arm> {
    seq(|delays|, k requires 0 <= k < |delays| => Arm(now + delays[k], false))
  }

  function PollKind(kind: Kind, arms: seq<Arm>, now: real): (p: Polled)
    ensures !p.ready ==> forall k :: 0 <= k < |p.arms| ==> p.arms[k].scheduled
  {
    PendingMeansAllPolled(arms, now);
    match kind
    case AnyKind => PollAny(arms, now)
    case AllKind => PollAll(arms, now)
  }

  function Calls<P>(times: seq<real>): seq<Effect<P>> {
    seq(|times|, k requires 0 <= k < |times| => Schedule(times[k]))
  }

  function Await<W, Q>(w: World<W>, kind: Kind, arms: seq<Arm>, c: Context): Outcome<World<W>, Proc<Q>> {
    var p := PollKind(kind, arms, c.now);
    if p.ready then Outcome(w.(resolved := w.resolved + [(c.process, c.now)]), None, Calls(p.calls))
    else Outcome(w, Some(Waiting(kind, p.arms)), Calls(p.calls))
  }

  /** The behaviour of the whole population of processes, given that of the user's. */
  function RunProc<W, Q>(user: UserBody<W, Q>, w: World<W>, p: Proc<Q>, c: Context): Outcome<World<W>, Proc<Q>> {
    match p
    case User(q) => var o := user(w.user, q, c); Outcome(w.(user := o.world), o.next, o.effects)
    case Fresh(kind, delays) => Await(w, kind, Create(delays, c.now), c)
    case Waiting(kind, arms) => Await(w, kind, arms, c)
  }

  function Population<W, Q>(user: UserBody<W, Q>): Body<World<W>, Proc<Q>> {
    (w, p, c) => RunProc(user, w, p, c)
  }

  ghost predicate UserNeverInThePast<W(!new), Q(!new)>(user: UserBody<W, Q>) {
    forall w: W, q: Q, c: Context, k: nat :: k < |user(w, q, c).effects| && user(w, q, c).effects[k].Schedule? ==>
      user(w, q, c).effects[k].time >= c.now
  }

  ghost predicate UserWakesAdmitted<W(!new), Q(!new)>(user: UserBody<W, Q>) {
    forall w: W, q: Q, c: Context, k: nat :: k < |user(w, q, c).effects| && user(w, q, c).effects[k].Wake? ==>
      user(w, q, c).effects[k].process < c.admitted
  }

  /** The times at which process `id` finished a combinator. */
  function TimesOf(resolved: seq<(nat, real)>, id: nat): seq<real> {
    if resolved == [] then []
    else TimesOf(resolved[..|resolved| - 1], id) +
         if resolved[|resolved| - 1].0 == id then [resolved[|resolved| - 1].1] else []
  }

  function Least(ds: seq<real>): real
    requires ds != []
  {
    if |ds| == 1 then ds[0] else var rest := Least(ds[1..]); if ds[0] < rest then ds[0] else rest
  }

  function Greatest(ds: seq<real>): real
    requires ds != []
  {
    if |ds| == 1 then ds[0] else var rest := Greatest(ds[1..]); if ds[0] > rest then ds[0] else rest
  }

  /** When the combinator over timeouts with these delays, created at `now`, should resolve. */
  function Goal(kind: Kind, delays: seq<Delay>, now: real): real
    requires kind.AnyKind? ==> delays != []
  {
    if delays == [] then now
    else if kind.AnyKind? then now + Least(delays)
    else now + Greatest(delays)
  }

  ghost predicate IsGoal(kind: Kind, arms: seq<Arm>, goal: real) {
    && (exists k :: 0 <= k < |arms| && arms[k].deadline == goal)
    && (forall k :: 0 <= k < |arms| ==> if kind.AnyKind? then goal <= arms[k].deadline else arms[k].deadline <= goal)
  }

  lemma {:induction false} LeastIs(ds: seq<real>) returns (k: nat)
    requires ds != []
    ensures k < |ds| && ds[k] == Least(ds) && forall j :: 0 <= j < |ds| ==> Least(ds) <= ds[j]
  {
    if |ds| == 1 { k := 0; } else { var j := LeastIs(ds[1..]); k := if ds[0] < Least(ds[1..]) then 0 else j + 1; }
  }

  lemma {:induction false} GreatestIs(ds: seq<real>) returns (k: nat)
    requires ds != []
    ensures k < |ds| && ds[k] == Greatest(ds) && forall j :: 0 <= j < |ds| ==> Greatest(ds) >= ds[j]
  {
    if |ds| == 1 { k := 0; } else { var j := GreatestIs(ds[1..]); k := if ds[0] > Greatest(ds[1..]) then 0 else j + 1; }
  }

  lemma GoalIs(kind: Kind, delays: seq<Delay>, now: real)
    requires delays != []
    ensures IsGoal(kind, Create(delays, now), Goal(kind, delays, now))
  {
    var k;
    if kind.AnyKind? { k := LeastIs(delays); } else { k := GreatestIs(delays); }
    assert Create(delays, now)[k].deadline == Goal(kind, delays, now);
  }

  // ----- The population is as disciplined as the user's processes -----

  lemma AwaitSchedules(kind: Kind, arms: seq<Arm>, now: real)
    requires Scheduled(arms) || (Unscheduled(arms) && forall k :: 0 <= k < |arms| ==> arms[k].deadline >= now)
    ensures forall k :: 0 <= k < |PollKind(kind, arms, now).calls| ==> PollKind(kind, arms, now).calls[k] >= now
  {
    if Scheduled(arms) {
      AnyResolvesWhenOneIsDue(arms, now);
      AllDropsWhatIsDue(arms, now);
    } else {
      FirstPollSchedulesAll(arms, now);
    }
  }

  lemma PopulationIsDisciplined<W(!new), Q(!new)>(user: UserBody<W, Q>)
    requires UserNeverInThePast(user) && UserWakesAdmitted(user)
    ensures NeverInThePast(Population(user)) && WakesAdmitted(Population(user))
  {
    var body := Population(user);
    forall w: World<W>, p: Proc<Q>, c: Context, k: nat | k < |body(w, p, c).effects|
      ensures body(w, p, c).effects[k].Schedule? ==> body(w, p, c).effects[k].time >= c.now
      ensures body(w, p, c).effects[k].Wake? ==> body(w, p, c).effects[k].process < c.admitted
    {
      match p
      case User(q) => assert body(w, p, c).effects == user(w.user, q, c).effects;
      case Fresh(kind, delays) => AwaitSchedules(kind, Create(delays, c.now), c.now);
      case Waiting(kind, arms) => AwaitSchedules(kind, arms, c.now);
    }
  }

  // ----- The invariant of one awaiting process -----

  /** Deadline `d` has not passed; its event is queued, or was dispatched and its process is ready. */
  ghost predicate Covered<W, P>(s: Sim<W, P>, id: nat, d: real) {
    && s.now <= d
    && ((exists e :: e in s.queue && e.time == d && e.process == id)
        || (id in s.ready && s.now == d))
  }

  ghost predicate AwaitInv<W, Q>(s: Sim<World<W>, Proc<Q>>, id: nat, kind: Kind, delays: seq<Delay>, goal: real) {
    && id < |s.slots|
    && match s.slots[id]
       case None => TimesOf(s.world.resolved, id) == [goal] && goal <= s.now
       case Some(User(_)) => false
       case Some(Fresh(k, ds)) =>
         && k == kind && ds == delays && id in s.ready && TimesOf(s.world.resolved, id) == []
         && (kind.AnyKind? ==> delays != []) && goal == Goal(kind, delays, s.now)
       case Some(Waiting(k, arms)) =>
         && k == kind && delays != [] && TimesOf(s.world.resolved, id) == [] && IsGoal(kind, arms, goal)
         && (forall j :: 0 <= j < |arms| ==> Covered(s, id, arms[j].deadline))
  }

  lemma PopKeepsAwait<W, Q>(s: Sim<World<W>, Proc<Q>>, id: nat, kind: Kind, delays: seq<Delay>, goal: real)
    requires OrderInv(s) && IdsInv(s) && s.queue != [] && s.ready == []
    requires AwaitInv(s, id, kind, delays, goal)
    ensures AwaitInv(PopEvent(s), id, kind, delays, goal)
  {
    hide IsGoal;
    var e, s' := s.queue[0], PopEvent(s);
    FillAllAppends(s.slots, s.pending);
    assert s'.slots[id] == s.slots[id];
    if s.slots[id].Some? {
      var arms := s.slots[id].value.arms;
      forall j | 0 <= j < |arms| ensures Covered(s', id, arms[j].deadline) {
        var x :| x in s.queue && x.time == arms[j].deadline && x.process == id;
        var i :| 0 <= i < |s.queue| && s.queue[i] == x;
        if i > 0 {
          assert (s.log + s.queue)[|s.log|] == e && (s.log + s.queue)[|s.log| + i] == x;
          assert s.queue[1..][i - 1] == x;
        }
      }
    }
  }

  lemma OtherRecords<W(!new), Q(!new)>(user: UserBody<W, Q>, w: World<W>, p: Proc<Q>, c: Context, id: nat)
    requires c.process != id
    ensures TimesOf(RunProc(user, w, p, c).world.resolved, id) == TimesOf(w.resolved, id)
  {
    assert (w.resolved + [(c.process, c.now)])[..|w.resolved|] == w.resolved;
  }

  lemma OtherPollKeepsAwait<W(!new), Q(!new)>(user: UserBody<W, Q>, s: Sim<World<W>, Proc<Q>>, id: nat, kind: Kind,
                                              delays: seq<Delay>, goal: real)
    requires WakesAdmitted(Population(user)) && IdsInv(s) && s.ready != []
    requires AwaitInv(s, id, kind, delays, goal) && (s.ready[0] != id || s.slots[id].None?)
    ensures AwaitInv(PollHead(Population(user), s), id, kind, delays, goal)
  {
    hide IsGoal, WakesAdmitted, Goal, IdsInv, TimesOf, RunProc;
    var h := s.ready[0];
    var s' := PollHead(Population(user), s);
    assert s.ready == [h] + s.ready[1..];
    if h < |s.slots| && s.slots[h].Some? {
      PollFrame(Population(user), s, h);
      OtherRecords(user, s.world, s.slots[h].value, Context(h, s.now, |s.slots|, s.nextId), id);
    }
    assert s'.slots[id] == s.slots[id];
  }

  lemma SameDeadlinesSameGoal(kind: Kind, a: seq<Arm>, b: seq<Arm>, goal: real)
    requires Deadlines(a) == Deadlines(b) && IsGoal(kind, a, goal)
    ensures IsGoal(kind, b, goal) && |a| == |b| && forall k :: 0 <= k < |a| ==> a[k].deadline == b[k].deadline
  {
    assert |Deadlines(a)| == |a| && |Deadlines(b)| == |b|;
    forall k | 0 <= k < |a| ensures a[k].deadline == b[k].deadline {
      assert Deadlines(a)[k] == Deadlines(b)[k];
    }
    var g :| 0 <= g < |a| && a[g].deadline == goal;
    assert b[g].deadline == goal;
  }

  /** The first poll of a fresh combinator queues a wakeup for each of its timeouts. */
  lemma FirstAwait<W, Q>(w: World<W>, kind: Kind, delays: seq<Delay>, c: Context)
    requires delays != []
    ensures var o: Outcome<World<W>, Proc<Q>> := Await(w, kind, Create(delays, c.now), c);
            && o.world == w && o.next.Some? && o.next.value.Waiting? && o.next.value.kind == kind
            && IsGoal(kind, o.next.value.arms, Goal(kind, delays, c.now))
            && |o.effects| == |o.next.value.arms|
            && (forall k :: 0 <= k < |o.effects| ==>
                  o.effects[k] == Schedule(o.next.value.arms[k].deadline) && o.next.value.arms[k].deadline >= c.now)
  {
    hide Goal, IsGoal, PollAny, PollAll;
    var arms := Create(delays, c.now);
    FirstPollSchedulesAll(arms, c.now);
    GoalIs(kind, delays, c.now);
    var p := PollKind(kind, arms, c.now);
    SameDeadlinesSameGoal(kind, arms, p.arms, Goal(kind, delays, c.now));
    assert |p.calls| == |arms| && forall k :: 0 <= k < |arms| ==> p.calls[k] == Deadlines(arms)[k] == arms[k].deadline;
  }

  /** A later poll, no deadline having passed, resolves exactly when the goal has come; otherwise
      it waits on, for arms that are all still due. */
  lemma LaterAwait<W, Q>(w: World<W>, kind: Kind, arms: Waits, c: Context, goal: real)
    requires IsGoal(kind, arms, goal) && forall k :: 0 <= k < |arms| ==> c.now <= arms[k].deadline
    ensures var o: Outcome<World<W>, Proc<Q>> := Await(w, kind, arms, c);
            o.effects == [] &&
            if c.now == goal then o.next.None? && o.world == w.(resolved := w.resolved + [(c.process, c.now)])
            else o.world == w && o.next.Some? && o.next.value.Waiting? && o.next.value.kind == kind &&
                 IsGoal(kind, o.next.value.arms, goal) &&
                 forall a :: a in o.next.value.arms ==> a in arms && a.deadline > c.now
  {
    AnyResolvesWhenOneIsDue(arms, c.now);
    AllDropsWhatIsDue(arms, c.now);
    var g :| 0 <= g < |arms| && arms[g].deadline == goal;
    var kept := PollKind(kind, arms, c.now).arms;
    assert kept == [] || kept[0] in kept;
    if c.now < goal {
      assert arms[g] in arms && arms[g] in kept;
    }
  }

  lemma SelfPollKeepsAwait<W(!new), Q(!new)>(user: UserBody<W, Q>, s: Sim<World<W>, Proc<Q>>, id: nat, kind: Kind,
                                             delays: seq<Delay>, goal: real)
    requires WakesAdmitted(Population(user)) && IdsInv(s) && s.ready != []
    requires AwaitInv(s, id, kind, delays, goal) && s.ready[0] == id && s.slots[id].Some?
    ensures AwaitInv(PollHead(Population(user), s), id, kind, delays, goal)
  {
    hide WakesAdmitted, IdsInv, Goal, IsGoal, Await, PollHead;
    var s' := PollHead(Population(user), s);
    var c := Context(id, s.now, |s.slots|, s.nextId);
    PollFrame(Population(user), s, id);
    var resolved := s.world.resolved + [(id, s.now)];
    assert resolved[..|s.world.resolved|] == s.world.resolved;
    assert TimesOf(resolved, id) == [s.now];
    if s.slots[id].value.Waiting? {
      LaterAwait<W, Q>(s.world, kind, s.slots[id].value.arms, c, goal);
    } else if delays != [] {
      FirstAwait<W, Q>(s.world, kind, delays, c);
    } else {
      EmptyAwait<W, Q>(s.world, c);
    }
  }

  lemma EmptyAwait<W, Q>(w: World<W>, c: Context)
    ensures Await<W, Q>(w, AllKind, Create([], c.now), c) ==
            Outcome(w.(resolved := w.resolved + [(c.process, c.now)]), None, [])
    ensures Goal(AllKind, [], c.now) == c.now
  {
  }

  lemma PollKeepsAwait<W(!new), Q(!new)>(user: UserBody<W, Q>, s: Sim<World<W>, Proc<Q>>, id: nat, kind: Kind,
                                         delays: seq<Delay>, goal: real)
    requires WakesAdmitted(Population(user)) && IdsInv(s) && s.ready != [] && AwaitInv(s, id, kind, delays, goal)
    ensures AwaitInv(PollHead(Population(user), s), id, kind, delays, goal)
  {
    hide PollHead, IsGoal, IdsInv, WakesAdmitted;
    if s.ready[0] == id && s.slots[id].Some? {
      SelfPollKeepsAwait(user, s, id, kind, delays, goal);
    } else {
      OtherPollKeepsAwait(user, s, id, kind, delays, goal);
    }
  }

  // ----- Whole runs -----

  lemma {:induction false} StepsKeepAwait<W(!new), Q(!new)>(user: UserBody<W, Q>, s: Sim<World<W>, Proc<Q>>, id: nat,
                                           kind: Kind, delays: seq<Delay>, goal: real, until: Option<real>, n: nat)
    requires NeverInThePast(Population(user)) && WakesAdmitted(Population(user))
    requires OrderInv(s) && IdsInv(s) && AwaitInv(s, id, kind, delays, goal)
    ensures AwaitInv(Steps(Population(user), s, until, n), id, kind, delays, goal)
    decreases n
  {
    hide AwaitInv, OrderInv, IdsInv, NeverInThePast, WakesAdmitted;
    if n > 0 && !Halted(s, until) {
      var s' := Next(Population(user), s, until);
      StepsKeepOrder(Population(user), s, until, 1);
      StepsKeepIds(Population(user), s, until, 1);
      assert Steps(Population(user), s, until, 1) == s';
      if s.ready == [] {
        PopKeepsAwait(s, id, kind, delays, goal);
      } else {
        PollKeepsAwait(user, s, id, kind, delays, goal);
      }
      StepsKeepAwait(user, s', id, kind, delays, goal, until, n - 1);
    } else if n > 0 {
      HaltedStays(Population(user), s, until, n);
    }
  }

  lemma GoalArm(kind: Kind, arms: seq<Arm>, goal: real) returns (g: nat)
    requires IsGoal(kind, arms, goal)
    ensures g < |arms| && arms[g].deadline == goal
  {
    g :| 0 <= g < |arms| && arms[g].deadline == goal;
  }

  /** In any simulation where a process that awaits a combinator over timeouts has just been
      admitted, whatever the other processes do, including waking it for no reason: if the run
      returns then the combinator resolved once, at the least deadline for `any_of` and the
      greatest for `all_of`, unless the boundary came first. */
  lemma CombinatorResolvesAtItsGoal<W(!new), Q(!new)>(user: UserBody<W, Q>, s: Sim<World<W>, Proc<Q>>, id: nat,
                                      kind: Kind, delays: seq<Delay>, until: Option<real>, r: Sim<World<W>, Proc<Q>>)
    requires UserNeverInThePast(user) && UserWakesAdmitted(user)
    requires OrderInv(s) && IdsInv(s) && s.pending == []
    requires id in s.ready && s.slots[id] == Some(Fresh(kind, delays)) && TimesOf(s.world.resolved, id) == []
    requires kind.AnyKind? ==> delays != []
    requires Returns(Population(user), s, until, r)
    ensures var goal := Goal(kind, delays, s.now);
            && TimesOf(r.world.resolved, id) in [[], [goal]]
            && (until.None? || goal < until.value ==> TimesOf(r.world.resolved, id) == [goal])
            && (until.Some? && s.now < until.value <= goal ==> TimesOf(r.world.resolved, id) == [])
  {
    var body := Population(user);
    var goal := Goal(kind, delays, s.now);
    PopulationIsDisciplined(user);
    AdmitNothing(s);
    hide Steps, OrderInv, IdsInv, NeverInThePast, WakesAdmitted, UserNeverInThePast, UserWakesAdmitted, TimesOf, IsGoal;
    var n: nat :| ReturnsAfter(body, s, until, r, n);
    var h := Steps(body, s, until, n);
    StepsKeepAwait(user, s, id, kind, delays, goal, until, n);
    StepsKeepOrder(body, s, until, n);
    StepsStayBefore(body, s, until, n);
    if h.slots[id].Some? {
      var arms := h.slots[id].value.arms;
      var g := GoalArm(kind, arms, goal);
      assert Covered(h, id, arms[g].deadline);
      var e :| e in h.queue && e.time == goal;
      HeadIsLeast(h, e);
    }
  }

  // ----- A timeout first polled late -----

  /** Creates a one-unit timeout, sleeps for two units, and only then awaits the first. */
  datatype Sleeper = Starts | Sleeps(early: Arm, late: Arm) | Awaits(early: Arm)

  function LatePoll(w: (), p: Sleeper, c: Context): Outcome<(), Sleeper> {
    match p
    case Starts => PollLate(Arm(c.now + 1.0, false), Arm(c.now + 2.0, false), c.now)
    case Sleeps(early, late) => PollLate(early, late, c.now)
    case Awaits(early) => PollEarly(early, c.now, [])
  }

  function PollLate(early: Arm, late: Arm, now: real): Outcome<(), Sleeper> {
    var (arm, ready, calls) := PollTimeout(late, now);
    if ready then PollEarly(early, now, calls) else Outcome((), Some(Sleeps(early, arm)), Calls(calls))
  }

  function PollEarly(early: Arm, now: real, calls: seq<real>): Outcome<(), Sleeper> {
    var (arm, ready, more) := PollTimeout(early, now);
    Outcome((), if ready then None else Some(Awaits(arm)), Calls(calls + more))
  }

  /** Asleep until 2, with the other timeout created but not polled. */
  function Asleep(): Sim<(), Sleeper> {
    Sim(0.0, [Event(2.0, 0, 0)], 1, [], 1, [Some(Sleeps(Arm(1.0, false), Arm(2.0, true)))], [], (), [], [0], [0])
  }

  function Awake(): Sim<(), Sleeper> {
    Asleep().(now := 2.0, queue := [], ready := [0], log := [Event(2.0, 0, 0)], pushes := [0, 0])
  }

  /** It has polled the other timeout, whose deadline was 1. */
  function Late(): Sim<(), Sleeper> {
    Awake().(queue := [Event(1.0, 1, 0)], tickets := 2, ready := [], slots := [Some(Awaits(Arm(1.0, true)))],
             polls := [0, 0])
  }

  lemma FallsAsleep()
    ensures Next(LatePoll, Admit(SpawnProcess(Init(()), Starts)), None) == Asleep()
  {
    var s := Admit(SpawnProcess(Init(()), Starts));
    assert FillAll([], [(0, Starts)]) == FillAll(Fill([], 0, Starts), []);
    assert s == Sim(0.0, [], 0, [0], 1, [Some(Starts)], [], (), [], [], [0]);
    assert LatePoll((), Starts, Context(0, 0.0, 1, 1)) ==
           Outcome((), Some(Sleeps(Arm(1.0, false), Arm(2.0, true))), [Schedule(2.0)]);
  }

  lemma WakesUp()
    ensures Next(LatePoll, Asleep(), None) == Awake() && !SchedulesPast(LatePoll, Asleep())
  {
    AdmitNothing(Push(Asleep().(now := 2.0, queue := [], log := [Event(2.0, 0, 0)]), [0]));
  }

  lemma PollsLate()
    ensures Next(LatePoll, Awake(), None) == Late() && SchedulesPast(LatePoll, Awake())
  {
    var p, c := Sleeps(Arm(1.0, false), Arm(2.0, true)), Context(0, 2.0, 1, 1);
    assert LatePoll((), p, c) == Outcome((), Some(Awaits(Arm(1.0, true))), [Schedule(1.0)]);
    assert LatePoll((), p, c).effects[0].time < 2.0;
  }

  /** The deadline of a timeout is fixed when it is created but queued when it is first polled: this
      process makes the clock go from 2 back to 1. */
  lemma LatePollRewindsTheClock()
    ensures var s := Admit(SpawnProcess(Init(()), Starts));
            && Steps(LatePoll, s, None, 3).now == 2.0 && Steps(LatePoll, s, None, 4).now == 1.0
            && SomewhereSchedulesPast(LatePoll, s, None, 3)
  {
    FallsAsleep();
    WakesUp();
    PollsLate();
    assert Next(LatePoll, Late(), None).now == 1.0;
    var s := Admit(SpawnProcess(Init(()), Starts));
    hide Next, SchedulesPast, Admit, SpawnProcess, Init;
    StepsAre(s, Asleep(), Awake(), Late());
  }

  lemma StepsAre(s0: Sim<(), Sleeper>, s1: Sim<(), Sleeper>, s2: Sim<(), Sleeper>, s3: Sim<(), Sleeper>)
    requires Next(LatePoll, s0, None) == s1 && Next(LatePoll, s1, None) == s2 && Next(LatePoll, s2, None) == s3
    ensures Steps(LatePoll, s0, None, 3) == s3 && Steps(LatePoll, s0, None, 4) == Next(LatePoll, s3, None)
    ensures SchedulesPast(LatePoll, s2) ==> SomewhereSchedulesPast(LatePoll, s0, None, 3)
  {
    hide Next, SchedulesPast;
    assert Steps(LatePoll, s3, None, 0) == s3;
    assert Steps(LatePoll, s2, None, 1) == s3 && Steps(LatePoll, s1, None, 2) == s3;
    assert Steps(LatePoll, Next(LatePoll, s3, None), None, 0) == Next(LatePoll, s3, None);
    assert Steps(LatePoll, s3, None, 1) == Next(LatePoll, s3, None);
    assert Steps(LatePoll, s2, None, 2) == Steps(LatePoll, s1, None, 3) == Next(LatePoll, s3, None);
    assert SchedulesPast(LatePoll, s2) ==> SomewhereSchedulesPast(LatePoll, s2, None, 1);
    assert SchedulesPast(LatePoll, s2) ==> SomewhereSchedulesPast(LatePoll, s1, None, 2);
  }
}
