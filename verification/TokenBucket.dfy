/** The rate limiter built on a container: a refill process that sleeps one time unit and puts a
    fixed amount, for ever, among any number of clients that get; and its rate bound. */
module TokenBuckets {
  import opened Containers
  import ContainerLaws

  /** The refill process awaits its timeout, or its put request. */
  datatype Phase = Sleeping(until: real) | Putting(req: nat)

  /** `stamps[k]` is the time at which `tank.commits[k]` was committed; it is history. */
  datatype Bucket = Bucket(amount: real, owner: nat, now: real, phase: Phase, tank: Tank, stamps: seq<real>)

  /** The clock moves; the refill process is polled; a client touches the container. */
  datatype Move = Tick(time: real) | Refill | Client(action: Containers.Action)

  function Start(capacity: real, amount: real, owner: nat, now: real): Bucket {
    Bucket(amount, owner, now, Sleeping(now + 1.0), Init(capacity, capacity), [])
  }

  function TankMove(b: Bucket, a: Containers.Action): Bucket
    requires Containers.Enabled(b.tank, a)
  {
    var t := Step(b.tank, a);
    b.(tank := t, stamps := b.stamps + if |b.tank.commits| <= |t.commits|
                                       then seq(|t.commits| - |b.tank.commits|, _ => b.now) else [])
  }

  /** After the awaited put was polled: sleep again if it went through. */
  function AfterPoll(b: Bucket, i: nat): Bucket {
    b.(phase := if i < |b.tank.reqs| && b.tank.reqs[i].finished then Sleeping(b.now + 1.0) else Putting(i))
  }

  function AskPut(b: Bucket): Bucket
    requires 0.0 < b.amount <= b.tank.capacity
  {
    TankMove(b, New(b.owner, Put, b.amount))
  }

  /** Time never passes the deadline of the sleeping refill, nor a wake of it that is not yet served.
      The bucket is private to the provider, so clients only get. */
  predicate Enabled(b: Bucket, m: Move) {
    match m
    case Tick(time) =>
      time >= b.now &&
      (match b.phase
       case Sleeping(u) => time <= u
       case Putting(i) => time == b.now || (i < |b.tank.reqs| && !b.tank.reqs[i].done))
    case Refill =>
      (match b.phase
       case Sleeping(_) => 0.0 < b.amount <= b.tank.capacity
       case Putting(i) => Containers.Enabled(b.tank, Poll(i)))
    case Client(a) =>
      Containers.Enabled(b.tank, a) &&
      (match a
       case New(_, kind, _) => kind.Get?
       case Poll(i) => b.tank.reqs[i].kind.Get?
       case DropRequest(i) => b.tank.reqs[i].kind.Get?)
  }

  function Advance(b: Bucket, m: Move): Bucket
    requires Enabled(b, m)
  {
    match m
    case Tick(time) => b.(now := time)
    case Refill =>
      (match b.phase
       case Sleeping(u) =>
         if b.now < u then b else var i := |b.tank.reqs|; AfterPoll(TankMove(AskPut(b), Poll(i)), i)
       case Putting(i) => AfterPoll(TankMove(b, Poll(i)), i))
    case Client(a) => TankMove(b, a)
  }

  predicate ValidRun(b: Bucket, moves: seq<Move>)
    decreases |moves|
  {
    moves == [] || (Enabled(b, moves[0]) && ValidRun(Advance(b, moves[0]), moves[1..]))
  }

  function Run(b: Bucket, moves: seq<Move>): Bucket
    requires ValidRun(b, moves)
    decreases |moves|
  {
    if moves == [] then b else Run(Advance(b, moves[0]), moves[1..])
  }

  // ----- What an action of the container can change -----

  /** Commits only grow; a request other than `j` can only become done. */
  ghost predicate Grows(s: Tank, s': Tank, j: nat) {
    && s.commits <= s'.commits && |s.reqs| <= |s'.reqs| && s'.capacity == s.capacity && s'.initial == s.initial
    && (forall i :: 0 <= i < |s.reqs| ==>
          s'.reqs[i].kind == s.reqs[i].kind && s'.reqs[i].amount == s.reqs[i].amount && s'.reqs[i].owner == s.reqs[i].owner)
    && (forall i :: 0 <= i < |s.reqs| && i != j ==>
          s'.reqs[i] == s.reqs[i] || s'.reqs[i] == s.reqs[i].(done := true))
    && (forall i :: 0 <= i < |s.reqs| && Committed(s.reqs[i]) ==> Committed(s'.reqs[i]))
  }

  lemma PopGrows(s: Tank, kind: Kind, j: nat)
    requires Queue(s, kind) != []
    ensures Grows(s, PopHead(s, kind), j) && Grows(s, CommitHead(s, kind), j)
  {
  }

  lemma GrowsThen(s: Tank, s1: Tank, s2: Tank, j: nat)
    requires Grows(s, s1, j) && Grows(s1, s2, j)
    ensures Grows(s, s2, j)
  {
  }

  lemma {:induction false} ServeGrows(s: Tank, kind: Kind, j: nat)
    ensures Grows(s, Serve(s, kind).0, j)
    decreases |Queue(s, kind)|
  {
    var q := Queue(s, kind);
    if q == [] {
    } else if Dead(s, q[0]) {
      var mid := PopHead(s, kind);
      ServeGrows(mid, kind, j);
      hide Grows;
      PopGrows(s, kind, j);
      GrowsThen(s, mid, Serve(mid, kind).0, j);
    } else if Fits(s, kind, q[0].amount) {
      var mid := CommitHead(s, kind);
      ServeGrows(mid, kind, j);
      hide Grows;
      PopGrows(s, kind, j);
      GrowsThen(s, mid, Serve(mid, kind).0, j);
    }
  }

  lemma {:induction false} CascadeGrows(s: Tank, j: nat)
    ensures Grows(s, Cascade(s), j)
    decreases |s.gets| + |s.puts|
  {
    hide Grows, Serve;
    var (s1, gotten) := Serve(s, Get);
    var (s2, put) := Serve(s1, Put);
    CascadeRound(s);
    ServeGrows(s, Get, j);
    ServeGrows(s1, Put, j);
    GrowsThen(s, s1, s2, j);
    if gotten || put {
      CascadeGrows(s2, j);
      GrowsThen(s, s2, Cascade(s2), j);
    }
  }

  function Target(s: Tank, a: Containers.Action): nat {
    match a case New(_, _, _) => |s.reqs| case Poll(i) => i case DropRequest(i) => i
  }

  lemma StepGrows(s: Tank, a: Containers.Action)
    requires Containers.Enabled(s, a)
    ensures Grows(s, Step(s, a), Target(s, a))
    ensures |Step(s, a).reqs| == |s.reqs| + if a.New? then 1 else 0
  {
    if a.Poll? && !s.reqs[a.i].done && Immediate(s, a.i) {
      var mid := CommitFresh(s, a.i);
      assert Grows(s, mid, a.i);
      CascadeGrows(mid, a.i);
      ContainerLaws.CascadeKeepsShape(mid);
    }
  }

  // ----- The invariant -----

  /** The `k`-th commit is a put. */
  predicate IsPut(t: Tank, k: int) {
    0 <= k < |t.commits| && t.commits[k] < |t.reqs| && t.reqs[t.commits[k]].kind.Put?
  }

  /** No put commits before this time, the current one apart if it has committed. */
  ghost function NextDue(b: Bucket): real {
    match b.phase
    case Sleeping(u) => u
    case Putting(i) => if i < |b.tank.reqs| && Committed(b.tank.reqs[i]) then b.now + 1.0 else b.now
  }

  ghost predicate PhaseInv(b: Bucket) {
    match b.phase
    case Sleeping(u) => b.now <= u
    case Putting(i) =>
      && i < |b.tank.reqs|
      && var r := b.tank.reqs[i]; r.kind.Put? && r.registered && !r.finished && !r.dropped
  }

  /** Every put is the refill's, and all but the one it awaits have committed. */
  ghost predicate PutsInv(b: Bucket) {
    forall i :: 0 <= i < |b.tank.reqs| && b.tank.reqs[i].kind.Put? ==>
      && b.tank.reqs[i].amount == b.amount && b.tank.reqs[i].owner == b.owner
      && (Committed(b.tank.reqs[i]) || b.phase == Putting(i))
  }

  /** Puts commit at least one time unit apart, and the next one keeps that distance. */
  ghost predicate SpacedInv(b: Bucket) {
    && |b.stamps| == |b.tank.commits|
    && (forall k :: 0 <= k < |b.stamps| ==> b.stamps[k] <= b.now)
    && (forall k, l :: 0 <= k < l < |b.stamps| && IsPut(b.tank, k) && IsPut(b.tank, l) ==>
          b.stamps[k] + 1.0 <= b.stamps[l])
    && (forall k :: 0 <= k < |b.stamps| && IsPut(b.tank, k) ==> b.stamps[k] + 1.0 <= NextDue(b))
  }

  ghost predicate Inv(b: Bucket) {
    0.0 < b.amount <= b.tank.capacity && Containers.Inv(b.tank) && PhaseInv(b) && PutsInv(b) && SpacedInv(b)
  }

  lemma StartInv(capacity: real, amount: real, owner: nat, now: real)
    requires 0.0 < amount <= capacity
    ensures Inv(Start(capacity, amount, owner, now))
  {
    hide Containers.Inv;
    ContainerLaws.InitInv(capacity, capacity);
  }

  /** Of the commits an action makes, only the awaited put can be a put: all others had committed,
      and nothing commits twice. */
  lemma NewPutIsAwaited(b: Bucket, a: Containers.Action, k: int)
    requires Containers.Enabled(b.tank, a) && Containers.Inv(b.tank) && PutsInv(b)
    requires |b.tank.commits| <= k && IsPut(Step(b.tank, a), k)
    ensures var i := Step(b.tank, a).commits[k];
            b.phase == Putting(i) && i < |b.tank.reqs| && !Committed(b.tank.reqs[i]) && Committed(Step(b.tank, a).reqs[i])
  {
    hide FlagsInv, QueueInv, Fifo, LevelInv, PollRequest;
    var t := Step(b.tank, a);
    StepGrows(b.tank, a);
    ContainerLaws.StepKeepsInv(b.tank, a);
    var i := t.commits[k];
    forall l | 0 <= l < |b.tank.commits| ensures b.tank.commits[l] != i {
      assert t.commits[l] == b.tank.commits[l];
    }
  }

  lemma TankMoveKeepsPuts(b: Bucket, a: Containers.Action)
    requires Containers.Enabled(b.tank, a) && Containers.Inv(b.tank) && PutsInv(b) && SpacedInv(b)
    requires a.New? ==> a.kind.Get?
    ensures var b' := TankMove(b, a); Containers.Inv(b'.tank) && PutsInv(b') && SpacedInv(b')
  {
    hide FlagsInv, QueueInv, Fifo, LevelInv, PollRequest;
    var b' := TankMove(b, a);
    var t, n := b'.tank, |b.tank.commits|;
    StepGrows(b.tank, a);
    ContainerLaws.StepKeepsInv(b.tank, a);
    forall k | 0 <= k < |t.commits| && IsPut(t, k)
      ensures if k < n then IsPut(b.tank, k) && b'.stamps[k] == b.stamps[k]
              else b'.stamps[k] == b.now && NextDue(b) == b.now && NextDue(b') == b.now + 1.0 && b.phase == Putting(t.commits[k])
    {
      if k >= n {
        NewPutIsAwaited(b, a, k);
      } else {
        assert t.commits[k] == b.tank.commits[k];
      }
    }
    assert NextDue(b) <= NextDue(b');
  }

  lemma AskPutReady(b: Bucket, u: real)
    requires Inv(b) && b.phase == Sleeping(u) && b.now >= u
    ensures var i := |b.tank.reqs|; var b1 := AskPut(b).(phase := Putting(i));
            && Containers.Inv(b1.tank) && PutsInv(b1) && SpacedInv(b1)
            && Containers.Enabled(b1.tank, Poll(i)) && b1.amount == b.amount && b1.tank.capacity == b.tank.capacity
            && b1.tank.reqs == b.tank.reqs + [Request(b.owner, Put, b.amount, false, false, false, false, false, 0)]
  {
    hide Containers.Inv;
    ContainerLaws.StepKeepsInv(b.tank, New(b.owner, Put, b.amount));
    assert AskPut(b).stamps == b.stamps;
    var b1 := AskPut(b).(phase := Putting(|b.tank.reqs|));
    assert forall k :: IsPut(b1.tank, k) ==> IsPut(b.tank, k) by { CommitsNamed(b.tank); }
  }

  lemma CommitsNamed(t: Tank)
    requires Containers.Inv(t)
    ensures forall k :: 0 <= k < |t.commits| ==> t.commits[k] < |t.reqs|
  {
  }

  /** A put that was polled is finished, or parked with its owner still awaiting it. */
  lemma PolledPut(s: Tank, i: nat)
    requires Containers.Inv(s) && Containers.Enabled(s, Poll(i)) && s.reqs[i].kind.Put?
    ensures var t := Step(s, Poll(i));
            i < |t.reqs| && t.reqs[i].kind.Put? && (t.reqs[i].finished || (t.reqs[i].registered && !t.reqs[i].dropped))
  {
    hide QueueInv, CommitsInv, Fifo, LevelInv;
    if !s.reqs[i].done && Immediate(s, i) {
      var mid := CommitFresh(s, i);
      CascadeGrows(mid, |mid.reqs|);
    }
  }

  lemma PollPutKeepsInv(b: Bucket, i: nat)
    requires 0.0 < b.amount <= b.tank.capacity && Containers.Inv(b.tank) && PutsInv(b) && SpacedInv(b)
    requires b.phase == Putting(i) && Containers.Enabled(b.tank, Poll(i)) && b.tank.reqs[i].kind.Put?
    ensures Inv(AfterPoll(TankMove(b, Poll(i)), i))
  {
    hide Containers.Inv, Step;
    TankMoveKeepsPuts(b, Poll(i));
    PolledPut(b.tank, i);
    StepGrows(b.tank, Poll(i));
    var b' := TankMove(b, Poll(i));
    assert NextDue(AfterPoll(b', i)) == NextDue(b');
  }

  lemma ClientKeepsPhase(b: Bucket, a: Containers.Action)
    requires Inv(b) && Enabled(b, Client(a))
    ensures Inv(TankMove(b, a))
  {
    hide Containers.Inv;
    TankMoveKeepsPuts(b, a);
    StepGrows(b.tank, a);
    if b.phase.Putting? && !b.tank.reqs[b.phase.req].done {
      NotPickedUp(b.tank, a, b.phase.req);
    }
  }

  lemma NotPickedUp(s: Tank, a: Containers.Action, i: nat)
    requires Containers.Enabled(s, a) && i < |s.reqs| && i != Target(s, a)
    ensures i < |Step(s, a).reqs| && Step(s, a).reqs[i].finished == s.reqs[i].finished
  {
    StepGrows(s, a);
  }

  lemma TickKeepsSpacing(b: Bucket, time: real)
    requires PutsInv(b) && SpacedInv(b) && Enabled(b, Tick(time))
    ensures PutsInv(Advance(b, Tick(time))) && SpacedInv(Advance(b, Tick(time)))
  {
  }

  /** Every move keeps the invariant. */
  lemma AdvanceKeepsInv(b: Bucket, m: Move)
    requires Inv(b) && Enabled(b, m)
    ensures Inv(Advance(b, m))
  {
    hide Containers.Inv, Step, PutsInv, SpacedInv;
    match m
    case Tick(time) => TickKeepsSpacing(b, time);
    case Client(a) => ClientKeepsPhase(b, a);
    case Refill =>
      match b.phase
      case Sleeping(u) =>
        if b.now >= u {
          var i := |b.tank.reqs|;
          AskPutReady(b, u);
          PollPutKeepsInv(AskPut(b).(phase := Putting(i)), i);
        }
      case Putting(i) => PollPutKeepsInv(b, i);
  }

  lemma {:induction false} RunKeepsInv(b: Bucket, moves: seq<Move>)
    requires Inv(b) && ValidRun(b, moves)
    ensures Inv(Run(b, moves))
    decreases |moves|
  {
    if moves != [] {
      AdvanceKeepsInv(b, moves[0]);
      RunKeepsInv(Advance(b, moves[0]), moves[1..]);
    }
  }

  // ----- The rate bound -----

  /** The amount withdrawn by gets that committed after time `s` and no later than time `t`. */
  function Withdrawn(tank: Tank, stamps: seq<real>, s: real, t: real, n: nat): real
    requires n <= |tank.commits| && n <= |stamps|
  {
    if n == 0 then 0.0
    else
      var j := tank.commits[n - 1];
      Withdrawn(tank, stamps, s, t, n - 1) +
      if j < |tank.reqs| && tank.reqs[j].kind.Get? && s < stamps[n - 1] <= t then tank.reqs[j].amount else 0.0
  }

  /** How many of the commits from the `m`-th to before the `n`-th are puts. */
  function PutCount(tank: Tank, m: nat, n: nat): nat
    requires n <= |tank.commits|
  {
    if n <= m then 0 else PutCount(tank, m, n - 1) + if IsPut(tank, n - 1) then 1 else 0
  }

  /** Commits a time unit apart, all within a window: at most one more than its length, rounded down. */
  lemma {:induction false} PutsAreSpaced(b: Bucket, s: real, m: nat, n: nat)
    requires SpacedInv(b) && m <= n <= |b.stamps|
    requires forall k :: m <= k < n ==> s < b.stamps[k]
    ensures PutCount(b.tank, m, n) > 0 ==>
              exists k :: m <= k < n && IsPut(b.tank, k) && b.stamps[k] - s > (PutCount(b.tank, m, n) - 1) as real
  {
    if m < n {
      PutsAreSpaced(b, s, m, n - 1);
      if IsPut(b.tank, n - 1) {
        if PutCount(b.tank, m, n - 1) > 0 {
          var k :| m <= k < n - 1 && IsPut(b.tank, k) && b.stamps[k] - s > (PutCount(b.tank, m, n - 1) - 1) as real;
          assert b.stamps[k] + 1.0 <= b.stamps[n - 1];
        }
        assert b.stamps[n - 1] - s > (PutCount(b.tank, m, n) - 1) as real;
      }
    }
  }

  /** Histories only grow, and what a run adds is stamped no earlier than its start. */
  ghost predicate Extends(b: Bucket, b': Bucket) {
    && b.now <= b'.now && b'.amount == b.amount && b'.tank.initial == b.tank.initial && b'.tank.capacity == b.tank.capacity
    && b.tank.commits <= b'.tank.commits && b.stamps <= b'.stamps && |b.tank.reqs| <= |b'.tank.reqs|
    && (forall k :: |b.stamps| <= k < |b'.stamps| ==> b.now <= b'.stamps[k])
    && (forall i :: 0 <= i < |b.tank.reqs| ==>
          b'.tank.reqs[i].kind == b.tank.reqs[i].kind && b'.tank.reqs[i].amount == b.tank.reqs[i].amount)
  }

  lemma TankMoveExtends(b: Bucket, a: Containers.Action)
    requires Containers.Enabled(b.tank, a)
    ensures Extends(b, TankMove(b, a))
  {
    hide Step;
    StepGrows(b.tank, a);
  }

  lemma AdvanceExtends(b: Bucket, m: Move)
    requires Enabled(b, m)
    ensures Extends(b, Advance(b, m))
  {
    hide TankMove;
    match m
    case Tick(_) =>
    case Client(a) => TankMoveExtends(b, a);
    case Refill =>
      match b.phase
      case Sleeping(u) =>
        if b.now >= u {
          var mid := AskPut(b);
          TankMoveExtends(b, New(b.owner, Put, b.amount));
          assert Containers.Enabled(mid.tank, Poll(|b.tank.reqs|)) && mid.now == b.now by { AskedPut(b); }
          TankMoveExtends(mid, Poll(|b.tank.reqs|));
          assert Extends(b, TankMove(mid, Poll(|b.tank.reqs|)));
        }
      case Putting(i) => TankMoveExtends(b, Poll(i));
  }

  lemma AskedPut(b: Bucket)
    requires 0.0 < b.amount <= b.tank.capacity
    ensures AskPut(b).now == b.now && Containers.Enabled(AskPut(b).tank, Poll(|b.tank.reqs|))
  {
  }

  lemma {:induction false} RunExtends(b: Bucket, moves: seq<Move>)
    requires ValidRun(b, moves)
    ensures Extends(b, Run(b, moves))
    decreases |moves|
  {
    if moves != [] {
      AdvanceExtends(b, moves[0]);
      RunExtends(Advance(b, moves[0]), moves[1..]);
    }
  }

  /** The amount of `n` refills. */
  function Refills(b: Bucket, n: int): real {
    b.amount * (n as real)
  }

  lemma {:induction false} NothingWithdrawn(tank: Tank, stamps: seq<real>, s: real, t: real, n: nat)
    requires n <= |tank.commits| && n <= |stamps| && forall k :: 0 <= k < n ==> stamps[k] <= s
    ensures Withdrawn(tank, stamps, s, t, n) == 0.0
  {
    if n > 0 { NothingWithdrawn(tank, stamps, s, t, n - 1); }
  }

  lemma CommitMovesLevel(b: Bucket, k: nat)
    requires Inv(b) && k < |b.tank.commits|
    ensures var j := b.tank.commits[k];
            && j < |b.tank.reqs|
            && Total(b.tank.reqs, b.tank.commits[..k + 1]) ==
               Total(b.tank.reqs, b.tank.commits[..k]) + (if IsPut(b.tank, k) then b.amount else -b.tank.reqs[j].amount)
            && (IsPut(b.tank, k) <==> b.tank.reqs[j].kind.Put?)
  {
    hide FlagsInv, QueueInv, Fifo, LevelInv, SpacedInv, PhaseInv, Total;
    CommitsNamed(b.tank);
    var commits := b.tank.commits;
    assert commits[..k + 1] == commits[..k] + [commits[k]];
    ContainerLaws.TotalExtend(b.tank.reqs, commits[..k], commits[k]);
  }

  /** What the level gained since the `m`-th commit is what was put less what was withdrawn. */
  lemma {:induction false} Account(b: Bucket, s: real, t: real, m: nat, n: nat)
    requires Inv(b) && m <= n <= |b.stamps| == |b.tank.commits|
    requires forall k :: 0 <= k < m ==> b.stamps[k] <= s
    requires forall k :: m <= k < n ==> s < b.stamps[k] <= t
    ensures Total(b.tank.reqs, b.tank.commits[..n]) - Total(b.tank.reqs, b.tank.commits[..m]) ==
            Refills(b, PutCount(b.tank, m, n)) - Withdrawn(b.tank, b.stamps, s, t, n)
    decreases n
  {
    hide Inv, Total, IsPut;
    if n == m {
      NothingWithdrawn(b.tank, b.stamps, s, t, n);
    } else {
      Account(b, s, t, m, n - 1);
      CommitMovesLevel(b, n - 1);
      var c := PutCount(b.tank, m, n - 1) as real;
      assert b.amount * (c + 1.0) == b.amount * c + b.amount;
    }
  }

  lemma PutsInWindow(b: Bucket, s: real, t: real, m: nat)
    requires Inv(b) && m <= |b.stamps| && s <= t && b.now <= t && forall k :: m <= k < |b.stamps| ==> s < b.stamps[k]
    ensures |b.stamps| == |b.tank.commits| && PutCount(b.tank, m, |b.stamps|) <= (t - s).Floor + 1
    ensures forall k :: m <= k < |b.stamps| ==> b.stamps[k] <= t
  {
    hide Containers.Inv, PutsInv, PhaseInv;
    var n := |b.stamps|;
    PutsAreSpaced(b, s, m, n);
    var puts := PutCount(b.tank, m, n);
    if puts > 0 {
      var k :| m <= k < n && IsPut(b.tank, k) && b.stamps[k] - s > (puts - 1) as real;
      assert t - s > (puts - 1) as real;
    }
  }

  lemma LevelGain(b: Bucket, b': Bucket)
    requires Inv(b) && Inv(b') && Extends(b, b')
    ensures b'.tank.level - b.tank.level == Total(b'.tank.reqs, b'.tank.commits) - Total(b'.tank.reqs, b.tank.commits)
    ensures 0.0 <= b'.tank.level && b.tank.level <= b.tank.capacity
    ensures |b.stamps| == |b.tank.commits| && |b'.stamps| == |b'.tank.commits|
  {
    hide FlagsInv, QueueInv, Fifo, CommitsInv;
    CommitsNamed(b.tank);
    ContainerLaws.TotalFrame(b.tank.reqs, b'.tank.reqs, b.tank.commits);
  }

  lemma StampsBefore(b: Bucket)
    requires Inv(b)
    ensures forall k :: 0 <= k < |b.stamps| ==> b.stamps[k] <= b.now
  {
  }

  /** The window's total: gets that committed after `s` and no later than `t`. */
  function WithdrawnIn(b: Bucket, s: real, t: real): real {
    Withdrawn(b.tank, b.stamps, s, t, if |b.stamps| <= |b.tank.commits| then |b.stamps| else |b.tank.commits|)
  }

  /** The run goes on, if at all, by moving the clock past `s`. */
  predicate NothingMoreBy(moves: seq<Move>, s: real) {
    moves == [] || (moves[0].Tick? && moves[0].time > s)
  }

  lemma WindowRun(b: Bucket, moves: seq<Move>, s: real)
    requires Inv(b) && ValidRun(b, moves) && b.now <= s
    requires NothingMoreBy(moves, s)
    ensures var b' := Run(b, moves);
            && Inv(b') && Extends(b, b') && b'.tank.commits[..|b.tank.commits|] == b.tank.commits
            && (forall k :: 0 <= k < |b.stamps| ==> b'.stamps[k] <= s)
            && (forall k :: |b.stamps| <= k < |b'.stamps| ==> s < b'.stamps[k])
  {
    hide Inv;
    RunKeepsInv(b, moves);
    if moves != [] { RunExtends(Advance(b, moves[0]), moves[1..]); }
    StampsBefore(b);
  }

  lemma Balance(b: Bucket, b': Bucket, withdrawn: real, puts: nat, most: int)
    requires b'.tank.level - b.tank.level == Refills(b', puts) - withdrawn
    requires b'.amount == b.amount >= 0.0 && b'.tank.level >= 0.0 && puts <= most
    ensures withdrawn <= b.tank.level + Refills(b, most)
  {
  }

  /** The limiter's promise, for any window: after the last move at or before `s` and up to `t`,
      what is withdrawn is at most the level at `s` and one refill for every whole unit begun. */
  lemma RateBound(b: Bucket, moves: seq<Move>, s: real, t: real)
    requires Inv(b) && ValidRun(b, moves) && b.now <= s <= t && NothingMoreBy(moves, s) && Run(b, moves).now <= t
    ensures WithdrawnIn(Run(b, moves), s, t) <= b.tank.level + Refills(b, (t - s).Floor + 1)
    ensures b.tank.level <= b.tank.capacity
  {
    var b' := Run(b, moves);
    WindowRun(b, moves, s);
    BoundOver(b, b', s, t);
  }

  lemma BoundOver(b: Bucket, b': Bucket, s: real, t: real)
    requires Inv(b) && Inv(b') && Extends(b, b') && b'.tank.commits[..|b.tank.commits|] == b.tank.commits
    requires forall k :: 0 <= k < |b.stamps| ==> b'.stamps[k] <= s
    requires forall k :: |b.stamps| <= k < |b'.stamps| ==> s < b'.stamps[k]
    requires s <= t && b'.now <= t
    ensures WithdrawnIn(b', s, t) <= b.tank.level + Refills(b, (t - s).Floor + 1)
    ensures b.tank.level <= b.tank.capacity
  {
    assert b.amount > 0.0;
    hide Inv, Total, PutCount, Withdrawn, Refills;
    var m, n := |b.stamps|, |b'.stamps|;
    LevelGain(b, b');
    PutsInWindow(b', s, t, m);
    Account(b', s, t, m, n);
    assert b'.tank.commits[..n] == b'.tank.commits;
    Balance(b, b', WithdrawnIn(b', s, t), PutCount(b'.tank, m, n), (t - s).Floor + 1);
  }

  /** From its construction on, however clients behave, the refill's puts commit a time unit apart. */
  lemma PutsCommitApart(capacity: real, amount: real, owner: nat, now: real, moves: seq<Move>, k: nat, l: nat)
    requires 0.0 < amount <= capacity && ValidRun(Start(capacity, amount, owner, now), moves)
    requires var b := Run(Start(capacity, amount, owner, now), moves);
             k < l < |b.stamps| && IsPut(b.tank, k) && IsPut(b.tank, l)
    ensures var b := Run(Start(capacity, amount, owner, now), moves); b.stamps[k] + 1.0 <= b.stamps[l]
  {
    hide Containers.Inv;
    StartInv(capacity, amount, owner, now);
    RunKeepsInv(Start(capacity, amount, owner, now), moves);
  }
}
