/** The refill is on time: its deadlines and the number of its puts, for any run of the rate limiter. */
module RefillLaws {
  import opened Containers
  import opened TokenBuckets
  import ContainerLaws

  // ----- Counting puts -----

  /** The puts committed so far. */
  function Puts(b: Bucket): nat {
    PutCount(b.tank, 0, |b.tank.commits|)
  }

  /** The refill's put has gone through, though the refill may not know yet. */
  ghost predicate Through(b: Bucket, i: nat) {
    i < |b.tank.reqs| && Committed(b.tank.reqs[i])
  }

  lemma {:induction false} SamePuts(t: Tank, t': Tank, n: nat)
    requires n <= |t.commits| && n <= |t'.commits| && forall k :: 0 <= k < n ==> (IsPut(t, k) <==> IsPut(t', k))
    ensures PutCount(t, 0, n) == PutCount(t', 0, n)
  {
    if n > 0 { SamePuts(t, t', n - 1); }
  }

  /** A stretch of commits with a single put, or none. */
  lemma {:induction false} OnePut(t: Tank, m: nat, n: nat)
    requires m <= n <= |t.commits|
    requires forall k, l :: m <= k < l < n ==> !(IsPut(t, k) && IsPut(t, l))
    ensures PutCount(t, 0, n) == PutCount(t, 0, m) + if exists k :: m <= k < n && IsPut(t, k) then 1 else 0
  {
    if m < n { OnePut(t, m, n - 1); }
  }

  lemma OldCommits(b: Bucket, a: Containers.Action, k: nat)
    requires Containers.Enabled(b.tank, a) && Containers.Inv(b.tank) && k < |b.tank.commits|
    ensures k < |Step(b.tank, a).commits| && Step(b.tank, a).commits[k] == b.tank.commits[k]
    ensures IsPut(Step(b.tank, a), k) <==> IsPut(b.tank, k)
  {
    CommitsNamed(b.tank);
    hide Containers.Inv, Step;
    StepGrows(b.tank, a);
  }

  /** An action commits a put exactly if it is the one the refill awaits. */
  lemma PutsMove(b: Bucket, a: Containers.Action, i: nat)
    requires Containers.Enabled(b.tank, a) && Containers.Inv(b.tank) && PutsInv(b)
    requires b.phase == Putting(i) && i < |b.tank.reqs| && b.tank.reqs[i].kind.Put?
    ensures Through(b, i) ==> Through(TankMove(b, a), i)
    ensures Puts(TankMove(b, a)) == Puts(b) + if !Through(b, i) && Through(TankMove(b, a), i) then 1 else 0
  {
    var t, n := Step(b.tank, a), |b.tank.commits|;
    StepGrows(b.tank, a);
    hide Containers.Inv, Step, PutsInv;
    forall k | 0 <= k < n ensures IsPut(t, k) <==> IsPut(b.tank, k) {
      OldCommits(b, a, k);
    }
    SamePuts(b.tank, t, n);
    NewPuts(b, a, i);
    OnePut(t, n, |t.commits|);
  }

  lemma NewPuts(b: Bucket, a: Containers.Action, i: nat)
    requires Containers.Enabled(b.tank, a) && Containers.Inv(b.tank) && PutsInv(b)
    requires b.phase == Putting(i) && i < |b.tank.reqs| && b.tank.reqs[i].kind.Put?
    ensures var t, n := Step(b.tank, a), |b.tank.commits|;
            && (forall k, l :: n <= k < l < |t.commits| ==> !(IsPut(t, k) && IsPut(t, l)))
            && ((exists k :: n <= k < |t.commits| && IsPut(t, k)) <==> !Through(b, i) && Through(TankMove(b, a), i))
  {
    var t, n := Step(b.tank, a), |b.tank.commits|;
    StepGrows(b.tank, a);
    ContainerLaws.StepKeepsInv(b.tank, a);
    CommitIndex(b.tank, i);
    CommitIndex(t, i);
    assert b.tank.commits <= t.commits;
    hide Containers.Inv, Step, PutsInv, PutCount, Grows;
    forall k | n <= k < |t.commits| && IsPut(t, k) ensures t.commits[k] == i && !Through(b, i) && Through(TankMove(b, a), i) {
      NewPutIsAwaited(b, a, k);
    }
    if !Through(b, i) && Through(TankMove(b, a), i) {
      var k :| 0 <= k < |t.commits| && t.commits[k] == i;
      Kept(b, a, i);
      assert IsPut(t, k);
    }
  }

  lemma Kept(b: Bucket, a: Containers.Action, i: nat)
    requires Containers.Enabled(b.tank, a) && i < |b.tank.reqs|
    ensures i < |Step(b.tank, a).reqs| && Step(b.tank, a).reqs[i].kind == b.tank.reqs[i].kind
  {
    hide Step;
    StepGrows(b.tank, a);
  }

  lemma CommitIndex(t: Tank, i: nat)
    requires Containers.Inv(t) && i < |t.reqs|
    ensures Committed(t.reqs[i]) <==> exists k :: 0 <= k < |t.commits| && t.commits[k] == i
    ensures forall k, l :: 0 <= k < l < |t.commits| ==> t.commits[k] != t.commits[l]
  {
  }

  lemma NoPutMoves(b: Bucket, a: Containers.Action)
    requires Containers.Enabled(b.tank, a) && Containers.Inv(b.tank) && PutsInv(b) && b.phase.Sleeping?
    ensures Puts(TankMove(b, a)) == Puts(b)
  {
    var t, n := Step(b.tank, a), |b.tank.commits|;
    StepGrows(b.tank, a);
    hide Containers.Inv, Step, PutsInv;
    forall k | 0 <= k < n ensures IsPut(t, k) <==> IsPut(b.tank, k) {
      OldCommits(b, a, k);
    }
    forall k | n <= k < |t.commits| ensures !IsPut(t, k) {
      if IsPut(t, k) { NewPutIsAwaited(b, a, k); }
    }
    SamePuts(b.tank, t, n);
    OnePut(t, n, |t.commits|);
  }

  // ----- The schedule -----

  /** The refill that began at `start` and has waited `waited` for its puts: it sleeps until one unit
      after the last put was picked up, and it asks for a put at its deadline. */
  ghost predicate OnTime(b: Bucket, start: real, waited: real) {
    match b.phase
    case Sleeping(u) => u == start + waited + Puts(b) as real + 1.0 && u - 1.0 <= b.now <= u
    case Putting(i) => b.now == start + waited + Puts(b) as real + if Through(b, i) then 0.0 else 1.0
  }

  /** How long the clock moves while the refill awaits a put. */
  function Delay(b: Bucket, m: Move): real {
    if m.Tick? && b.phase.Putting? then m.time - b.now else 0.0
  }

  function Waited(b: Bucket, moves: seq<Move>): real
    requires ValidRun(b, moves)
    decreases |moves|
  {
    if moves == [] then 0.0 else Delay(b, moves[0]) + Waited(Advance(b, moves[0]), moves[1..])
  }

  lemma TankKeepsTime(b: Bucket, a: Containers.Action, start: real, waited: real)
    requires Containers.Enabled(b.tank, a) && Containers.Inv(b.tank) && PutsInv(b) && OnTime(b, start, waited)
    requires b.phase.Putting? ==> b.phase.req < |b.tank.reqs| && b.tank.reqs[b.phase.req].kind.Put?
    ensures OnTime(TankMove(b, a), start, waited)
  {
    hide Containers.Inv, PutsInv, Step, Puts, Through;
    match b.phase
    case Sleeping(_) => NoPutMoves(b, a);
    case Putting(i) => PutsMove(b, a, i);
  }

  lemma PollKeepsTime(b: Bucket, i: nat, start: real, waited: real)
    requires b.phase == Putting(i) && Containers.Enabled(b.tank, Poll(i)) && b.tank.reqs[i].kind.Put?
    requires Containers.Inv(b.tank) && PutsInv(b) && OnTime(b, start, waited)
    ensures OnTime(AfterPoll(TankMove(b, Poll(i)), i), start, waited)
  {
    TankKeepsTime(b, Poll(i), start, waited);
    hide Containers.Inv, PutsInv, TankMove, PutCount;
    assert Puts(AfterPoll(TankMove(b, Poll(i)), i)) == Puts(TankMove(b, Poll(i)));
  }

  lemma AskKeepsTime(b: Bucket, u: real, start: real, waited: real)
    requires TokenBuckets.Inv(b) && b.phase == Sleeping(u) && b.now >= u && OnTime(b, start, waited)
    ensures OnTime(AskPut(b).(phase := Putting(|b.tank.reqs|)), start, waited)
  {
    AskPutReady(b, u);
    var b1 := AskPut(b).(phase := Putting(|b.tank.reqs|));
    forall k | 0 <= k < |b.tank.commits| ensures IsPut(b.tank, k) <==> IsPut(b1.tank, k) {
      OldCommits(b, New(b.owner, Put, b.amount), k);
    }
    hide Containers.Inv, PutsInv, SpacedInv, PhaseInv;
    SamePuts(b.tank, b1.tank, |b.tank.commits|);
  }

  lemma MoveKeepsTime(b: Bucket, m: Move, start: real, waited: real)
    requires TokenBuckets.Inv(b) && TokenBuckets.Enabled(b, m) && OnTime(b, start, waited)
    ensures OnTime(Advance(b, m), start, waited + Delay(b, m))
  {
    hide Containers.Inv, Step, PutsInv, SpacedInv, PutCount;
    match m
    case Tick(time) =>
    case Client(a) => TankKeepsTime(b, a, start, waited);
    case Refill =>
      match b.phase
      case Sleeping(u) =>
        if b.now >= u {
          var i := |b.tank.reqs|;
          AskPutReady(b, u);
          AskKeepsTime(b, u, start, waited);
          PollKeepsTime(AskPut(b).(phase := Putting(i)), i, start, waited);
        }
      case Putting(i) => PollKeepsTime(b, i, start, waited);
  }

  lemma {:induction false} RunKeepsTime(b: Bucket, moves: seq<Move>, start: real, waited: real)
    requires TokenBuckets.Inv(b) && ValidRun(b, moves) && OnTime(b, start, waited)
    ensures OnTime(Run(b, moves), start, waited + Waited(b, moves))
    decreases |moves|
  {
    hide TokenBuckets.Inv, OnTime, Advance, TokenBuckets.Enabled, Delay;
    if moves != [] {
      var m := moves[0];
      AdvanceKeepsInv(b, m);
      MoveKeepsTime(b, m, start, waited);
      RunKeepsTime(Advance(b, m), moves[1..], start, waited + Delay(b, m));
    }
  }

  /** From its construction on, whatever the clients do, the refill loses no time but what it waits
      for its puts: it sleeps until one unit for each put there was and one more have gone by. */
  lemma RefillIsOnTime(capacity: real, amount: real, owner: nat, start: real, moves: seq<Move>)
    requires 0.0 < amount <= capacity && ValidRun(Start(capacity, amount, owner, start), moves)
    ensures var b0 := Start(capacity, amount, owner, start); OnTime(Run(b0, moves), start, Waited(b0, moves))
  {
    hide TokenBuckets.Inv;
    StartInv(capacity, amount, owner, start);
    RunKeepsTime(Start(capacity, amount, owner, start), moves, start, 0.0);
  }

  /** A refill that has slept its due and never waited has put once for every whole unit gone by. */
  lemma PutsByNow(capacity: real, amount: real, owner: nat, start: real, moves: seq<Move>)
    requires 0.0 < amount <= capacity && ValidRun(Start(capacity, amount, owner, start), moves)
    requires var b := Run(Start(capacity, amount, owner, start), moves); b.phase.Sleeping? && b.now < b.phase.until
    ensures var b0 := Start(capacity, amount, owner, start); var b := Run(b0, moves);
            Puts(b) == (b.now - start - Waited(b0, moves)).Floor
  {
    hide TokenBuckets.Inv, Puts, Run, Waited;
    RefillIsOnTime(capacity, amount, owner, start, moves);
  }

  /** No put has had to wait in the queue. */
  ghost predicate NoneParked(t: Tank) {
    forall i :: 0 <= i < |t.reqs| && t.reqs[i].kind.Put? ==> !t.reqs[i].registered
  }

  lemma ParkedStays(t: Tank, a: Containers.Action, i: nat)
    requires Containers.Enabled(t, a) && i < |t.reqs| && t.reqs[i].registered
    ensures i < |Step(t, a).reqs| && Step(t, a).reqs[i].registered && Step(t, a).reqs[i].kind == t.reqs[i].kind
  {
    StepGrows(t, a);
  }

  lemma NoneParkedBefore(t: Tank, a: Containers.Action)
    requires Containers.Enabled(t, a) && NoneParked(Step(t, a))
    ensures NoneParked(t)
  {
    hide Step;
    forall i | 0 <= i < |t.reqs| && t.reqs[i].kind.Put? ensures !t.reqs[i].registered {
      if t.reqs[i].registered { ParkedStays(t, a, i); }
    }
  }

  lemma NoneParkedEarlier(b: Bucket, m: Move)
    requires TokenBuckets.Inv(b) && TokenBuckets.Enabled(b, m) && NoneParked(Advance(b, m).tank)
    ensures NoneParked(b.tank)
  {
    hide Containers.Inv, Step, NoneParked, PutsInv, SpacedInv;
    match m
    case Tick(_) =>
    case Client(a) => NoneParkedBefore(b.tank, a);
    case Refill =>
      match b.phase
      case Sleeping(u) =>
        if b.now >= u {
          AskPutReady(b, u);
          NoneParkedBefore(AskPut(b).tank, Poll(|b.tank.reqs|));
          NoneParkedBefore(b.tank, New(b.owner, Put, b.amount));
        }
      case Putting(i) => NoneParkedBefore(b.tank, Poll(i));
  }

  lemma {:induction false} NeverWaited(b: Bucket, moves: seq<Move>)
    requires TokenBuckets.Inv(b) && ValidRun(b, moves) && NoneParked(Run(b, moves).tank)
    ensures Waited(b, moves) == 0.0 && NoneParked(b.tank)
    decreases |moves|
  {
    hide Containers.Inv, PutsInv, SpacedInv, Advance, TokenBuckets.Enabled;
    if moves != [] {
      AdvanceKeepsInv(b, moves[0]);
      NeverWaited(Advance(b, moves[0]), moves[1..]);
      NoneParkedEarlier(b, moves[0]);
    }
  }

  /** In a run in which no put has had to wait, one put for every whole unit since the start. */
  lemma PutsOnSchedule(capacity: real, amount: real, owner: nat, start: real, moves: seq<Move>)
    requires 0.0 < amount <= capacity && ValidRun(Start(capacity, amount, owner, start), moves)
    requires var b := Run(Start(capacity, amount, owner, start), moves);
             NoneParked(b.tank) && b.phase.Sleeping? && b.now < b.phase.until
    ensures var b := Run(Start(capacity, amount, owner, start), moves); Puts(b) == (b.now - start).Floor
  {
    hide TokenBuckets.Inv, Puts, Run, Waited, NoneParked;
    StartInv(capacity, amount, owner, start);
    NeverWaited(Start(capacity, amount, owner, start), moves);
    PutsByNow(capacity, amount, owner, start, moves);
  }

  // ----- The time slept -----

  /** A put that was awaited has gone through and been picked up. */
  ghost predicate PicksUp(b: Bucket, b': Bucket) {
    exists i :: 0 <= i < |b'.tank.reqs| && b'.tank.reqs[i].kind.Put? && b'.tank.reqs[i].finished &&
                !(i < |b.tank.reqs| && b.tank.reqs[i].finished)
  }

  /** When a put was last picked up. */
  ghost function LastPickup(b: Bucket, moves: seq<Move>, last: real): real
    requires ValidRun(b, moves)
    decreases |moves|
  {
    if moves == [] then last
    else LastPickup(Advance(b, moves[0]), moves[1..], if PicksUp(b, Advance(b, moves[0])) then b.now else last)
  }

  ghost predicate SleepsOneUnit(b: Bucket, last: real) {
    b.phase.Sleeping? ==> b.phase.until == last + 1.0
  }

  lemma ClientPicksUpNothing(b: Bucket, a: Containers.Action)
    requires TokenBuckets.Enabled(b, Client(a))
    ensures !PicksUp(b, TankMove(b, a))
  {
    hide Step;
    StepGrows(b.tank, a);
    var t := TankMove(b, a).tank;
    if a.New? { Asked(b.tank, a); }
    forall i | 0 <= i < |t.reqs| && t.reqs[i].kind.Put? ensures t.reqs[i].finished ==> i < |b.tank.reqs| && b.tank.reqs[i].finished {
      if i != Target(b.tank, a) { NotPickedUp(b.tank, a, i); }
    }
  }

  lemma Asked(t: Tank, a: Containers.Action)
    requires Containers.Enabled(t, a) && a.New?
    ensures Step(t, a).reqs == t.reqs + [Request(a.owner, a.kind, a.amount, false, false, false, false, false, 0)]
  {
  }

  lemma MoveSleeps(b: Bucket, m: Move, last: real)
    requires TokenBuckets.Inv(b) && TokenBuckets.Enabled(b, m) && SleepsOneUnit(b, last)
    ensures SleepsOneUnit(Advance(b, m), if PicksUp(b, Advance(b, m)) then b.now else last)
  {
    hide Containers.Inv, Step, PutsInv, SpacedInv;
    match m
    case Tick(time) =>
    case Client(a) => ClientPicksUpNothing(b, a);
    case Refill =>
      match b.phase
      case Sleeping(u) =>
        if b.now >= u { AskPutReady(b, u); AskedKind(b); }
      case Putting(i) => StepGrows(b.tank, Poll(i));
  }

  lemma AskedKind(b: Bucket)
    requires TokenBuckets.Inv(b)
    ensures var i := |b.tank.reqs|; var mid := AskPut(b);
            && Containers.Enabled(mid.tank, Poll(i)) && i < |TankMove(mid, Poll(i)).tank.reqs|
            && TankMove(mid, Poll(i)).tank.reqs[i].kind.Put? && mid.now == b.now
  {
    hide Containers.Inv, PutsInv, SpacedInv, PollRequest;
    StepGrows(AskPut(b).tank, Poll(|b.tank.reqs|));
  }

  lemma {:induction false} RunSleeps(b: Bucket, moves: seq<Move>, last: real)
    requires TokenBuckets.Inv(b) && ValidRun(b, moves) && SleepsOneUnit(b, last)
    ensures SleepsOneUnit(Run(b, moves), LastPickup(b, moves, last))
    decreases |moves|
  {
    if moves != [] {
      var m := moves[0];
      AdvanceKeepsInv(b, m);
      MoveSleeps(b, m, last);
      hide TokenBuckets.Inv, Advance, TokenBuckets.Enabled, PicksUp, SleepsOneUnit;
      RunSleeps(Advance(b, m), moves[1..], if PicksUp(b, Advance(b, m)) then b.now else last);
    }
  }

  /** Whenever the refill sleeps, it is until exactly one unit after the start, or after the time its
      last put was picked up. */
  lemma EachSleepIsOneUnit(capacity: real, amount: real, owner: nat, start: real, moves: seq<Move>)
    requires 0.0 < amount <= capacity && ValidRun(Start(capacity, amount, owner, start), moves)
    ensures var b0 := Start(capacity, amount, owner, start); var b := Run(b0, moves);
            b.phase.Sleeping? ==> b.phase.until == LastPickup(b0, moves, start) + 1.0
  {
    hide TokenBuckets.Inv;
    StartInv(capacity, amount, owner, start);
    RunSleeps(Start(capacity, amount, owner, start), moves, start);
  }

  // ----- The level -----

  lemma LevelWithin(b: Bucket)
    requires TokenBuckets.Inv(b)
    ensures 0.0 <= b.tank.level <= b.tank.capacity
  {
    hide FlagsInv, QueueInv, CommitsInv, Fifo, PutsInv, SpacedInv, PhaseInv;
  }

  /** The level, at any time, is a full bucket and all that was put, less what was withdrawn; and it
      stays within the capacity the bucket was made with. */
  lemma LevelIs(capacity: real, amount: real, owner: nat, start: real, moves: seq<Move>)
    requires 0.0 < amount <= capacity && ValidRun(Start(capacity, amount, owner, start), moves)
    ensures var b := Run(Start(capacity, amount, owner, start), moves);
            && b.tank.level == capacity + Refills(b, Puts(b)) - WithdrawnIn(b, start - 1.0, b.now)
            && 0.0 <= b.tank.level <= capacity && b.amount == amount
  {
    hide TokenBuckets.Inv, Total, Withdrawn, Refills, PutCount;
    var b0 := Start(capacity, amount, owner, start);
    var b := Run(b0, moves);
    StartInv(capacity, amount, owner, start);
    RunKeepsInv(b0, moves);
    RunExtends(b0, moves);
    StampsBefore(b);
    LevelGain(b0, b);
    LevelWithin(b);
    var n := |b.stamps|;
    Account(b, start - 1.0, b.now, 0, n);
    assert b.tank.commits[..n] == b.tank.commits && b.tank.commits[..0] == [] == b0.tank.commits;
  }
}
