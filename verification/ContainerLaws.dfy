/** What every run of a container keeps: its level, its order of service, and when it is stuck. */
module ContainerLaws {
  import opened Containers

  // ----- Totals -----

  lemma {:induction false} TotalFrame(reqs: seq<Request>, reqs': seq<Request>, commits: seq<nat>)
    requires |reqs| <= |reqs'|
    requires forall b :: 0 <= b < |commits| ==> commits[b] < |reqs|
    requires forall i :: 0 <= i < |reqs| ==> reqs'[i].kind == reqs[i].kind && reqs'[i].amount == reqs[i].amount
    ensures Total(reqs', commits) == Total(reqs, commits)
  {
    if commits != [] {
      TotalFrame(reqs, reqs', commits[..|commits| - 1]);
    }
  }

  lemma TotalExtend(reqs: seq<Request>, commits: seq<nat>, j: nat)
    requires j < |reqs|
    ensures Total(reqs, commits + [j]) == Total(reqs, commits) + Change(reqs[j].kind, reqs[j].amount)
  {
    assert (commits + [j])[..|commits|] == commits;
  }

  /** Committing a request that fits moves the level by its amount and keeps it within bounds. */
  lemma LevelMoves(s: Tank, reqs': seq<Request>, j: nat)
    requires LevelInv(s) && j < |s.reqs| == |reqs'| && forall b :: 0 <= b < |s.commits| ==> s.commits[b] < |s.reqs|
    requires forall i :: 0 <= i < |reqs'| ==> reqs'[i].kind == s.reqs[i].kind && reqs'[i].amount == s.reqs[i].amount
    requires 0.0 < s.reqs[j].amount && Fits(s, s.reqs[j].kind, s.reqs[j].amount)
    ensures var level := s.level + Change(s.reqs[j].kind, s.reqs[j].amount);
            0.0 <= level <= s.capacity && level == s.initial + Total(reqs', s.commits + [j])
  {
    TotalFrame(s.reqs, reqs', s.commits);
    TotalExtend(reqs', s.commits, j);
  }

  // ----- Queues -----

  /** Popping the head, dead or just committed. */
  lemma QueueTail(reqs: seq<Request>, reqs': seq<Request>, q: seq<Waiter>, kind: Kind)
    requires QueueInv(reqs, q, kind) && q != []
    requires |reqs'| == |reqs| && (reqs'[q[0].req].canceled || reqs'[q[0].req].done)
    requires forall i :: 0 <= i < |reqs| && i != q[0].req ==> reqs'[i] == reqs[i]
    ensures QueueInv(reqs', q[1..], kind)
  {
    forall i | 0 <= i < |reqs| && i != q[0].req && Queued(q, i) ensures Queued(q[1..], i) {
    }
    forall k | 0 <= k < |q[1..]| ensures q[1..][k] == q[k + 1] && q[1..][k].req != q[0].req {
    }
  }

  /** A request of the other kind, or one that neither was nor is waiting, changed. */
  lemma QueueFrame(reqs: seq<Request>, reqs': seq<Request>, q: seq<Waiter>, kind: Kind, j: nat)
    requires QueueInv(reqs, q, kind) && j < |reqs| == |reqs'|
    requires forall i :: 0 <= i < |reqs| && i != j ==> reqs'[i] == reqs[i]
    requires !Waits(reqs[j], kind, reqs[j].amount) && !Waits(reqs'[j], kind, reqs'[j].amount)
    ensures QueueInv(reqs', q, kind)
  {
  }

  lemma QueueAppend(reqs: seq<Request>, reqs': seq<Request>, q: seq<Waiter>, kind: Kind, j: nat, arrivals: nat)
    requires QueueInv(reqs, q, kind) && j < |reqs| == |reqs'|
    requires forall i :: 0 <= i < |reqs| && i != j ==> reqs'[i] == reqs[i]
    requires !Waits(reqs[j], kind, reqs[j].amount) && Waits(reqs'[j], kind, reqs'[j].amount)
    requires reqs'[j].arrival == arrivals
    requires forall i :: 0 <= i < |reqs| && Arrived(reqs[i]) ==> reqs[i].arrival < arrivals
    ensures QueueInv(reqs', q + [Waiter(j, reqs'[j].amount)], kind)
  {
    var q' := q + [Waiter(j, reqs'[j].amount)];
    assert q'[|q|].req == j;
    forall k | 0 <= k < |reqs| && Queued(q, k) ensures Queued(q', k) {
      var n :| 0 <= n < |q| && q[n].req == k;
      assert q'[n].req == k;
    }
  }

  // ----- One commit -----

  /** Extending the commit order by `j`, once nobody of its kind who came earlier is waiting. */
  lemma CommitKeepsOrder(reqs: seq<Request>, reqs': seq<Request>, commits: seq<nat>, j: nat)
    requires CommitsInv(reqs, commits) && Fifo(reqs, commits) && j < |reqs| == |reqs'|
    requires !Committed(reqs[j]) && Committed(reqs'[j]) && reqs'[j].kind == reqs[j].kind
    requires !reqs[j].canceled
    requires forall i :: 0 <= i < |reqs| && i != j ==> reqs'[i] == reqs[i]
    requires forall b :: 0 <= b < |commits| && Earlier(reqs', j, commits[b]) ==> Earlier(reqs, j, commits[b])
    requires forall i :: 0 <= i < |reqs| && Earlier(reqs', i, j) ==> reqs[i].canceled || Committed(reqs[i])
    ensures CommitsInv(reqs', commits + [j]) && Fifo(reqs', commits + [j])
  {
    var commits' := commits + [j];
    forall b, i | 0 <= b < |commits'| && 0 <= i < |reqs'| && commits'[b] < |reqs'| && Earlier(reqs', i, commits'[b])
      ensures reqs'[i].canceled || i in commits'[..b]
    {
      if b < |commits| {
        assert commits'[b] == commits[b] && commits'[..b] == commits[..b];
        assert Earlier(reqs, i, commits[b]);
      } else {
        assert commits'[..b] == commits;
      }
    }
    assert forall i :: i in commits ==> i in commits';
    assert commits'[|commits|] == j;
  }

  lemma PopDeadKeepsInv(s: Tank, kind: Kind)
    requires Inv(s) && Queue(s, kind) != [] && Dead(s, Queue(s, kind)[0])
    ensures Inv(PopHead(s, kind))
  {
    QueueTail(s.reqs, s.reqs, Queue(s, kind), kind);
  }

  lemma NobodyWaitsBeforeHead(s: Tank, kind: Kind, i: nat)
    requires Inv(s) && Queue(s, kind) != [] && i < |s.reqs| && Earlier(s.reqs, i, Queue(s, kind)[0].req)
    ensures s.reqs[i].canceled || Committed(s.reqs[i])
  {
    var q := Queue(s, kind);
    forall k | 0 <= k < |q| ensures q[k].req != i {
      assert k == 0 || s.reqs[q[0].req].arrival < s.reqs[q[k].req].arrival;
    }
    assert !Queued(q, i);
  }

  lemma HeadWaits(s: Tank, kind: Kind)
    requires Inv(s) && Queue(s, kind) != [] && !Dead(s, Queue(s, kind)[0])
    ensures var w := Queue(s, kind)[0];
            && QueueInv(s.reqs, Queue(s, kind), kind) && QueueInv(s.reqs, Queue(s, Other(kind)), Other(kind))
            && w.req < |s.reqs| && Waits(s.reqs[w.req], kind, w.amount) && !s.reqs[w.req].finished
            && !s.reqs[w.req].canceled
            && FlagsInv(s.reqs[w.req := s.reqs[w.req].(done := true)], s.capacity, s.arrivals)
  {
    hide CommitsInv, Fifo, FlagsInv;
    assert QueueInv(s.reqs, Queue(s, kind), kind);
    DoneFlags(s.reqs, s.capacity, s.arrivals, Queue(s, kind)[0].req);
  }

  lemma DoneFlags(reqs: seq<Request>, capacity: real, arrivals: nat, j: nat)
    requires FlagsInv(reqs, capacity, arrivals) && j < |reqs|
    requires reqs[j].registered && !reqs[j].canceled && !reqs[j].done
    ensures FlagsInv(reqs[j := reqs[j].(done := true)], capacity, arrivals) && !reqs[j].finished
  {
  }

  lemma CommitHeadKeepsInv(s: Tank, kind: Kind)
    requires Inv(s) && Queue(s, kind) != []
    requires !Dead(s, Queue(s, kind)[0]) && Fits(s, kind, Queue(s, kind)[0].amount)
    ensures Inv(CommitHead(s, kind))
  {
    hide Fifo, QueueInv, FlagsInv, CommitsInv;
    HeadWaits(s, kind);
    var j := Queue(s, kind)[0].req;
    var reqs' := s.reqs[j := s.reqs[j].(done := true)];
    QueueTail(s.reqs, reqs', Queue(s, kind), kind);
    QueueFrame(s.reqs, reqs', Queue(s, Other(kind)), Other(kind), j);
    CommitHeadKeepsOrder(s, kind);
    CommitHeadKeepsLevel(s, kind);
  }

  lemma CommitHeadKeepsOrder(s: Tank, kind: Kind)
    requires Inv(s) && Queue(s, kind) != []
    requires !Dead(s, Queue(s, kind)[0]) && Fits(s, kind, Queue(s, kind)[0].amount)
    ensures var s' := CommitHead(s, kind); CommitsInv(s'.reqs, s'.commits) && Fifo(s'.reqs, s'.commits)
  {
    hide Fifo, QueueInv, FlagsInv, CommitsInv, LevelInv, Total;
    HeadWaits(s, kind);
    var j := Queue(s, kind)[0].req;
    var reqs' := s.reqs[j := s.reqs[j].(done := true)];
    forall i | 0 <= i < |s.reqs| && Earlier(reqs', i, j) ensures s.reqs[i].canceled || Committed(s.reqs[i]) {
      NobodyWaitsBeforeHead(s, kind, i);
    }
    CommitsExist(s);
    CommitKeepsOrder(s.reqs, reqs', s.commits, j);
  }

  lemma CommitHeadKeepsLevel(s: Tank, kind: Kind)
    requires Inv(s) && Queue(s, kind) != []
    requires !Dead(s, Queue(s, kind)[0]) && Fits(s, kind, Queue(s, kind)[0].amount)
    ensures LevelInv(CommitHead(s, kind))
  {
    hide Fifo, QueueInv, FlagsInv, CommitsInv, Total;
    HeadWaits(s, kind);
    var j := Queue(s, kind)[0].req;
    CommitsExist(s);
    AmountPositive(s, j);
    LevelMoves(s, s.reqs[j := s.reqs[j].(done := true)], j);
  }

  lemma AmountPositive(s: Tank, j: nat)
    requires Inv(s) && j < |s.reqs|
    ensures 0.0 < s.reqs[j].amount <= s.capacity
  {
  }

  lemma {:induction false} ServeKeepsInv(s: Tank, kind: Kind)
    requires Inv(s)
    ensures Inv(Serve(s, kind).0)
    decreases |Queue(s, kind)|
  {
    hide Inv;
    var q := Queue(s, kind);
    if q == [] {
    } else if Dead(s, q[0]) {
      PopDeadKeepsInv(s, kind);
      ServeKeepsInv(PopHead(s, kind), kind);
    } else if Fits(s, kind, q[0].amount) {
      CommitHeadKeepsInv(s, kind);
      ServeKeepsInv(CommitHead(s, kind), kind);
    }
  }

  lemma {:induction false} CascadeKeepsInv(s: Tank)
    requires Inv(s)
    ensures Inv(Cascade(s))
    decreases |s.gets| + |s.puts|
  {
    var (s1, gotten) := Serve(s, Get);
    var (s2, put) := Serve(s1, Put);
    ServeKeepsInv(s, Get);
    ServeKeepsInv(s1, Put);
    ServeShrinks(s, Get);
    ServeShrinks(s1, Put);
    if gotten || put {
      CascadeKeepsInv(s2);
    }
  }

  // ----- Each action -----

  lemma NobodyLiveNobodyWaits(s: Tank, kind: Kind, i: nat)
    requires Inv(s) && !HasLive(s, Queue(s, kind)) && i < |s.reqs| && s.reqs[i].kind == kind && Arrived(s.reqs[i])
    ensures s.reqs[i].canceled || Committed(s.reqs[i])
  {
    var q := Queue(s, kind);
    if Queued(q, i) {
      var n :| 0 <= n < |q| && q[n].req == i;
      assert Dead(s, q[n]);
    }
  }

  lemma FinishFlags(reqs: seq<Request>, capacity: real, arrivals: nat, i: nat)
    requires FlagsInv(reqs, capacity, arrivals) && i < |reqs| && !Arrived(reqs[i]) && !reqs[i].dropped
    ensures !reqs[i].canceled && !Committed(reqs[i])
    ensures FlagsInv(reqs[i := reqs[i].(arrival := arrivals, finished := true)], capacity, arrivals + 1)
  {
  }

  lemma CommitFreshKeepsInv(s: Tank, i: nat)
    requires Inv(s) && Enabled(s, Poll(i)) && Immediate(s, i)
    ensures Inv(CommitFresh(s, i))
  {
    hide Fifo, QueueInv, FlagsInv, CommitsInv;
    var r := s.reqs[i];
    var reqs' := s.reqs[i := r.(arrival := s.arrivals, finished := true)];
    FinishFlags(s.reqs, s.capacity, s.arrivals, i);
    QueueFrame(s.reqs, reqs', s.gets, Get, i);
    QueueFrame(s.reqs, reqs', s.puts, Put, i);
    CommitFreshKeepsOrder(s, i);
    CommitFreshKeepsLevel(s, i);
  }

  lemma CommitFreshKeepsOrder(s: Tank, i: nat)
    requires Inv(s) && Enabled(s, Poll(i)) && Immediate(s, i)
    ensures var s' := CommitFresh(s, i); CommitsInv(s'.reqs, s'.commits) && Fifo(s'.reqs, s'.commits)
  {
    hide Fifo, QueueInv, FlagsInv, CommitsInv, LevelInv, Total;
    var r := s.reqs[i];
    var reqs' := s.reqs[i := r.(arrival := s.arrivals, finished := true)];
    FreshIsBehind(s, i);
    forall k | 0 <= k < |s.reqs| && Earlier(reqs', k, i) ensures s.reqs[k].canceled || Committed(s.reqs[k]) {
      NobodyLiveNobodyWaits(s, r.kind, k);
    }
    CommitKeepsOrder(s.reqs, reqs', s.commits, i);
  }

  lemma CommitFreshKeepsLevel(s: Tank, i: nat)
    requires Inv(s) && Enabled(s, Poll(i)) && Immediate(s, i)
    ensures LevelInv(CommitFresh(s, i))
  {
    hide Fifo, QueueInv, FlagsInv, CommitsInv, Total;
    CommitsExist(s);
    AmountPositive(s, i);
    LevelMoves(s, s.reqs[i := s.reqs[i].(arrival := s.arrivals, finished := true)], i);
  }

  /** Changing a request that has not committed, without letting it jump the order. */
  lemma OrderFrame(reqs: seq<Request>, reqs': seq<Request>, commits: seq<nat>, j: nat)
    requires CommitsInv(reqs, commits) && Fifo(reqs, commits) && j < |reqs| == |reqs'|
    requires forall i :: 0 <= i < |reqs| && i != j ==> reqs'[i] == reqs[i]
    requires reqs'[j].kind == reqs[j].kind && (Committed(reqs'[j]) <==> Committed(reqs[j]))
    requires reqs[j].canceled ==> reqs'[j].canceled
    requires forall b :: 0 <= b < |commits| && Earlier(reqs', j, commits[b]) ==> Earlier(reqs, j, commits[b])
    requires Committed(reqs[j]) ==> reqs'[j].arrival == reqs[j].arrival
    ensures CommitsInv(reqs', commits) && Fifo(reqs', commits)
  {
    forall b, i | 0 <= b < |commits| && 0 <= i < |reqs'| && Earlier(reqs', i, commits[b])
      ensures reqs'[i].canceled || i in commits[..b]
    {
      assert Earlier(reqs, i, commits[b]);
    }
  }

  lemma FreshIsBehind(s: Tank, i: nat)
    requires Inv(s) && i < |s.reqs| && !Arrived(s.reqs[i]) && !s.reqs[i].dropped
    ensures forall r :: r in s.reqs && Arrived(r) ==> r.arrival < s.arrivals
    ensures forall b :: 0 <= b < |s.commits| ==> s.commits[b] < |s.reqs| && s.reqs[s.commits[b]].arrival < s.arrivals
    ensures !s.reqs[i].canceled && !Committed(s.reqs[i])
    ensures FlagsInv(s.reqs[i := s.reqs[i].(arrival := s.arrivals, registered := true)], s.capacity, s.arrivals + 1)
  {
  }

  lemma ParkKeepsInv(s: Tank, i: nat)
    requires Inv(s) && Enabled(s, Poll(i)) && !s.reqs[i].done && !s.reqs[i].registered
    ensures Inv(Park(s, i))
  {
    hide Fifo, QueueInv, FlagsInv, CommitsInv, LevelInv;
    FreshIsBehind(s, i);
    var r := s.reqs[i];
    var reqs' := s.reqs[i := r.(arrival := s.arrivals, registered := true)];
    QueueAppend(s.reqs, reqs', Queue(s, r.kind), r.kind, i, s.arrivals);
    QueueFrame(s.reqs, reqs', Queue(s, Other(r.kind)), Other(r.kind), i);
    OrderFrame(s.reqs, reqs', s.commits, i);
    LevelFrame(s, Park(s, i));
  }

  /** Neither the level nor what was committed changes. */
  lemma LevelFrame(s: Tank, s': Tank)
    requires CommitsInv(s.reqs, s.commits) && LevelInv(s) && |s.reqs| <= |s'.reqs|
    requires s'.capacity == s.capacity && s'.initial == s.initial && s'.level == s.level && s'.commits == s.commits
    requires forall k :: 0 <= k < |s.reqs| ==> s'.reqs[k].kind == s.reqs[k].kind && s'.reqs[k].amount == s.reqs[k].amount
    ensures LevelInv(s')
  {
    hide Total;
    TotalFrame(s.reqs, s'.reqs, s.commits);
  }

  lemma PickUpFlags(reqs: seq<Request>, capacity: real, arrivals: nat, i: nat)
    requires FlagsInv(reqs, capacity, arrivals) && i < |reqs| && reqs[i].done
    ensures FlagsInv(reqs[i := reqs[i].(finished := true)], capacity, arrivals)
  {
  }

  lemma PickUpKeepsInv(s: Tank, i: nat)
    requires Inv(s) && Enabled(s, Poll(i)) && s.reqs[i].done
    ensures Inv(Step(s, Poll(i)))
  {
    hide Fifo, QueueInv, FlagsInv, CommitsInv, LevelInv;
    var reqs' := s.reqs[i := s.reqs[i].(finished := true)];
    PickUpFlags(s.reqs, s.capacity, s.arrivals, i);
    QueueFrame(s.reqs, reqs', s.gets, Get, i);
    QueueFrame(s.reqs, reqs', s.puts, Put, i);
    CommitsExist(s);
    DoneHasArrived(s, i);
    OrderFrame(s.reqs, reqs', s.commits, i);
    LevelFrame(s, Step(s, Poll(i)));
  }

  lemma DoneHasArrived(s: Tank, i: nat)
    requires Inv(s) && i < |s.reqs| && s.reqs[i].done
    ensures s.reqs[i].registered
  {
  }

  /** Dropping changes two flags only. */
  lemma DropFlags(reqs: seq<Request>, capacity: real, arrivals: nat, i: nat, r: Request)
    requires FlagsInv(reqs, capacity, arrivals) && i < |reqs|
    requires r == reqs[i].(dropped := true, canceled := reqs[i].canceled || (reqs[i].registered && !reqs[i].done))
    ensures FlagsInv(reqs[i := r], capacity, arrivals)
  {
  }

  lemma DropQueue(reqs: seq<Request>, q: seq<Waiter>, kind: Kind, i: nat, r: Request)
    requires QueueInv(reqs, q, kind) && i < |reqs|
    requires r == reqs[i].(dropped := true, canceled := reqs[i].canceled || (reqs[i].registered && !reqs[i].done))
    ensures QueueInv(reqs[i := r], q, kind)
  {
    var reqs' := reqs[i := r];
    assert forall k :: 0 <= k < |q| ==> reqs'[q[k].req].arrival == reqs[q[k].req].arrival;
  }

  lemma DropKeepsInv(s: Tank, i: nat)
    requires Inv(s) && Enabled(s, DropRequest(i))
    ensures Inv(Step(s, DropRequest(i)))
  {
    hide Fifo, QueueInv, FlagsInv, CommitsInv, LevelInv;
    var reqs' := Step(s, DropRequest(i)).reqs;
    DropFlags(s.reqs, s.capacity, s.arrivals, i, reqs'[i]);
    DropQueue(s.reqs, s.gets, Get, i, reqs'[i]);
    DropQueue(s.reqs, s.puts, Put, i, reqs'[i]);
    CommitsExist(s);
    OrderFrame(s.reqs, reqs', s.commits, i);
    LevelFrame(s, Step(s, DropRequest(i)));
  }

  lemma CommitsExist(s: Tank)
    requires CommitsInv(s.reqs, s.commits)
    ensures forall b :: 0 <= b < |s.commits| ==> s.commits[b] < |s.reqs|
  {
  }

  /** A request not polled yet. */
  predicate Unpolled(r: Request, capacity: real) {
    0.0 < r.amount <= capacity && !r.registered && !r.done && !r.finished && !r.canceled && !r.dropped
  }

  lemma NewFlags(reqs: seq<Request>, capacity: real, arrivals: nat, r: Request)
    requires FlagsInv(reqs, capacity, arrivals) && Unpolled(r, capacity)
    ensures FlagsInv(reqs + [r], capacity, arrivals)
  {
  }

  lemma NewQueue(reqs: seq<Request>, q: seq<Waiter>, kind: Kind, r: Request, capacity: real)
    requires QueueInv(reqs, q, kind) && Unpolled(r, capacity)
    ensures QueueInv(reqs + [r], q, kind)
  {
    var reqs' := reqs + [r];
    assert forall k :: 0 <= k < |q| ==> reqs'[q[k].req] == reqs[q[k].req];
  }

  lemma NewCommits(reqs: seq<Request>, commits: seq<nat>, r: Request, capacity: real)
    requires CommitsInv(reqs, commits) && Unpolled(r, capacity)
    ensures CommitsInv(reqs + [r], commits)
  {
  }

  lemma NewFifo(reqs: seq<Request>, commits: seq<nat>, r: Request, capacity: real)
    requires Fifo(reqs, commits) && Unpolled(r, capacity) && forall b :: 0 <= b < |commits| ==> commits[b] < |reqs|
    ensures Fifo(reqs + [r], commits)
  {
    var reqs' := reqs + [r];
    forall b, i | 0 <= b < |commits| && 0 <= i < |reqs'| && Earlier(reqs', i, commits[b])
      ensures reqs'[i].canceled || i in commits[..b]
    {
      assert Earlier(reqs, i, commits[b]);
    }
  }

  lemma NewKeepsInv(s: Tank, a: Action)
    requires Inv(s) && Enabled(s, a) && a.New?
    ensures Inv(Step(s, a))
  {
    hide Fifo, QueueInv, FlagsInv, CommitsInv, LevelInv;
    var r := Request(a.owner, a.kind, a.amount, false, false, false, false, false, 0);
    NewFlags(s.reqs, s.capacity, s.arrivals, r);
    NewQueue(s.reqs, s.gets, Get, r, s.capacity);
    NewQueue(s.reqs, s.puts, Put, r, s.capacity);
    NewCommits(s.reqs, s.commits, r, s.capacity);
    CommitsExist(s);
    NewFifo(s.reqs, s.commits, r, s.capacity);
    LevelFrame(s, Step(s, a));
  }

  lemma StepKeepsInv(s: Tank, a: Action)
    requires Inv(s) && Enabled(s, a)
    ensures Inv(Step(s, a))
  {
    hide Inv;
    match a
    case New(_, _, _) => NewKeepsInv(s, a);
    case Poll(i) =>
      if s.reqs[i].done {
        PickUpKeepsInv(s, i);
      } else if Immediate(s, i) {
        CommitFreshKeepsInv(s, i);
        CascadeKeepsInv(CommitFresh(s, i));
      } else if !s.reqs[i].registered {
        ParkKeepsInv(s, i);
      }
    case DropRequest(i) => DropKeepsInv(s, i);
  }

  // ----- Whole runs -----

  predicate ValidRun(s: Tank, acts: seq<Action>)
    decreases |acts|
  {
    acts == [] || (Enabled(s, acts[0]) && ValidRun(Step(s, acts[0]), acts[1..]))
  }

  function Run(s: Tank, acts: seq<Action>): Tank
    requires ValidRun(s, acts)
    decreases |acts|
  {
    if acts == [] then s else Run(Step(s, acts[0]), acts[1..])
  }

  lemma {:induction false} RunKeepsInv(s: Tank, acts: seq<Action>)
    requires Inv(s) && ValidRun(s, acts)
    ensures Inv(Run(s, acts))
    decreases |acts|
  {
    if acts != [] {
      StepKeepsInv(s, acts[0]);
      RunKeepsInv(Step(s, acts[0]), acts[1..]);
    }
  }

  lemma {:induction false} RunKeepsShape(s: Tank, acts: seq<Action>)
    requires ValidRun(s, acts)
    ensures var s' := Run(s, acts); s'.capacity == s.capacity && s'.initial == s.initial
    decreases |acts|
  {
    if acts != [] {
      if acts[0].Poll? && acts[0].i < |s.reqs| { CascadeKeepsShape(CommitFresh(s, acts[0].i)); }
      RunKeepsShape(Step(s, acts[0]), acts[1..]);
    }
  }

  lemma {:induction false} CascadeKeepsShape(s: Tank)
    ensures var s' := Cascade(s); s'.capacity == s.capacity && s'.initial == s.initial && |s'.reqs| == |s.reqs|
    decreases |s.gets| + |s.puts|
  {
    var (s1, gotten) := Serve(s, Get);
    var (s2, put) := Serve(s1, Put);
    ServeShrinks(s, Get);
    ServeShrinks(s1, Put);
    if gotten || put {
      CascadeKeepsShape(s2);
    }
  }

  lemma EmptyInv(capacity: real)
    ensures FlagsInv([], capacity, 0)
    ensures forall kind :: QueueInv([], [], kind)
    ensures CommitsInv([], []) && Fifo([], [])
  {
  }

  lemma InitInv(capacity: real, level: real)
    requires 0.0 <= level <= capacity
    ensures Inv(Init(capacity, level))
  {
    hide FlagsInv, QueueInv, CommitsInv, Fifo;
    EmptyInv(capacity);
  }

  /** What the committed requests of one kind asked for, together. */
  function Amounts(reqs: seq<Request>, commits: seq<nat>, kind: Kind): real {
    if commits == [] then 0.0
    else
      var last := commits[|commits| - 1];
      Amounts(reqs, commits[..|commits| - 1], kind) +
      if last < |reqs| && reqs[last].kind == kind then reqs[last].amount else 0.0
  }

  lemma {:induction false} TotalIs(reqs: seq<Request>, commits: seq<nat>)
    ensures Total(reqs, commits) == Amounts(reqs, commits, Put) - Amounts(reqs, commits, Get)
  {
    if commits != [] { TotalIs(reqs, commits[..|commits| - 1]); }
  }

  /** Conservation: the level stays within bounds and is the initial level plus the committed puts
      minus the committed gets. Each request commits at most once, exactly the requests that are
      done or Ready have committed, whether dropped since or not, and a canceled one never has. */
  lemma LevelIsConserved(capacity: real, level: real, acts: seq<Action>)
    requires 0.0 <= level <= capacity && ValidRun(Init(capacity, level), acts)
    ensures var s := Run(Init(capacity, level), acts);
            && 0.0 <= s.level <= capacity
            && s.level == level + Amounts(s.reqs, s.commits, Put) - Amounts(s.reqs, s.commits, Get)
            && (forall a, b :: 0 <= a < b < |s.commits| ==> s.commits[a] != s.commits[b])
            && (forall i :: 0 <= i < |s.reqs| ==> (i in s.commits <==> s.reqs[i].done || s.reqs[i].finished))
            && (forall i :: 0 <= i < |s.reqs| && s.reqs[i].canceled ==> i !in s.commits)
  {
    var s0 := Init(capacity, level);
    hide Fifo, QueueInv, Total, Amounts;
    InitInv(capacity, level);
    RunKeepsInv(s0, acts);
    RunKeepsShape(s0, acts);
    TotalIs(Run(s0, acts).reqs, Run(s0, acts).commits);
  }

  /** Strict first-in first-out service on each side: whenever a get (or put) commits, every get
      (or put) first polled before it has committed before it, or has been canceled. */
  lemma ServiceIsFifo(capacity: real, level: real, acts: seq<Action>, b: nat, i: nat)
    requires 0.0 <= level <= capacity && ValidRun(Init(capacity, level), acts)
    requires var s := Run(Init(capacity, level), acts);
             b < |s.commits| && i < |s.reqs| && s.commits[b] < |s.reqs| && Earlier(s.reqs, i, s.commits[b])
    ensures var s := Run(Init(capacity, level), acts); s.reqs[i].canceled || i in s.commits[..b]
  {
    var s0 := Init(capacity, level);
    hide FlagsInv, QueueInv, CommitsInv;
    InitInv(capacity, level);
    RunKeepsInv(s0, acts);
  }

  // ----- The cascade, exactly -----

  function LiveOf(reqs: seq<Request>, q: seq<Waiter>): seq<Waiter> {
    if q == [] then []
    else if q[0].req < |reqs| && reqs[q[0].req].canceled then LiveOf(reqs, q[1..])
    else [q[0]] + LiveOf(reqs, q[1..])
  }

  ghost predicate SameCancellations(reqs: seq<Request>, reqs': seq<Request>) {
    |reqs'| == |reqs| && forall i :: 0 <= i < |reqs| ==> reqs'[i].canceled == reqs[i].canceled
  }

  lemma {:induction false} LiveOfFrame(reqs: seq<Request>, reqs': seq<Request>, q: seq<Waiter>)
    requires SameCancellations(reqs, reqs')
    ensures LiveOf(reqs', q) == LiveOf(reqs, q)
  {
    if q != [] { LiveOfFrame(reqs, reqs', q[1..]); }
  }

  lemma {:induction false} NoneLive(s: Tank, q: seq<Waiter>)
    ensures !HasLive(s, q) <==> LiveOf(s.reqs, q) == []
  {
    if q != [] {
      NoneLive(s, q[1..]);
      if HasLive(s, q) && Dead(s, q[0]) {
        var k :| 0 <= k < |q| && !Dead(s, q[k]);
        assert q[1..][k - 1] == q[k];
      }
      if HasLive(s, q[1..]) {
        var k :| 0 <= k < |q[1..]| && !Dead(s, q[1..][k]);
        assert q[k + 1] == q[1..][k];
      }
    }
  }

  lemma {:induction false} ServeKeepsCancellations(s: Tank, kind: Kind)
    ensures SameCancellations(s.reqs, Serve(s, kind).0.reqs)
    decreases |Queue(s, kind)|
  {
    var q := Queue(s, kind);
    if q == [] {
    } else if Dead(s, q[0]) {
      ServeKeepsCancellations(PopHead(s, kind), kind);
    } else if Fits(s, kind, q[0].amount) {
      ServeKeepsCancellations(CommitHead(s, kind), kind);
    }
  }

  /** Serving a queue of dead entries only empties it. */
  lemma {:induction false} ServeDead(s: Tank, kind: Kind)
    requires LiveOf(s.reqs, Queue(s, kind)) == []
    ensures Serve(s, kind) == (WithQueue(s, kind, []), false)
    decreases |Queue(s, kind)|
  {
    if Queue(s, kind) != [] {
      ServeDead(PopHead(s, kind), kind);
    }
  }

  /** After serving, the head of the queue is live and does not fit. */
  lemma {:induction false} ServeBlocks(s: Tank, kind: Kind)
    ensures var s' := Serve(s, kind).0; var q' := Queue(s', kind);
            q' != [] ==> !Dead(s', q'[0]) && !Fits(s', kind, q'[0].amount)
    decreases |Queue(s, kind)|
  {
    var q := Queue(s, kind);
    if q == [] {
    } else if Dead(s, q[0]) {
      ServeBlocks(PopHead(s, kind), kind);
    } else if Fits(s, kind, q[0].amount) {
      ServeBlocks(CommitHead(s, kind), kind);
    }
  }

  /** Taking the head of one queue commutes with replacing the other. */
  lemma HeadCommutes(s: Tank, kind: Kind, other: seq<Waiter>)
    requires Queue(s, kind) != []
    ensures var t := WithQueue(s, Other(kind), other);
            && Queue(t, kind) == Queue(s, kind)
            && PopHead(t, kind) == WithQueue(PopHead(s, kind), Other(kind), other)
            && CommitHead(t, kind) == WithQueue(CommitHead(s, kind), Other(kind), other)
            && Dead(t, Queue(s, kind)[0]) == Dead(s, Queue(s, kind)[0])
            && Fits(t, kind, Queue(s, kind)[0].amount) == Fits(s, kind, Queue(s, kind)[0].amount)
  {
  }

  lemma HeadsShrink(s: Tank, kind: Kind)
    requires Queue(s, kind) != []
    ensures Queue(PopHead(s, kind), kind) == Queue(s, kind)[1..] == Queue(CommitHead(s, kind), kind)
  {
  }

  /** Serving one side does not look at the other queue. */
  lemma {:induction false} ServeIgnoresOther(s: Tank, kind: Kind, other: seq<Waiter>)
    ensures Serve(WithQueue(s, Other(kind), other), kind)
            == (WithQueue(Serve(s, kind).0, Other(kind), other), Serve(s, kind).1)
    decreases |Queue(s, kind)|
  {
    var q := Queue(s, kind);
    if q != [] {
      hide WithQueue, Queue, PopHead, CommitHead, Dead, Fits;
      HeadCommutes(s, kind, other);
      HeadsShrink(s, kind);
      if Dead(s, q[0]) {
        ServeIgnoresOther(PopHead(s, kind), kind, other);
      } else if Fits(s, kind, q[0].amount) {
        ServeIgnoresOther(CommitHead(s, kind), kind, other);
      }
    }
  }

  /** Passes of the loop until one serves nobody. */
  function Rounds(s: Tank): nat
    decreases |s.gets| + |s.puts|
  {
    var (s1, gotten) := Serve(s, Get);
    var (s2, put) := Serve(s1, Put);
    ServeShrinks(s, Get);
    ServeShrinks(s1, Put);
    if !gotten && !put then 1 else 1 + Rounds(s2)
  }

  /** With nobody live on one side, the two-sided loop is one pass over the other side, and a
      second pass that finds nothing to do. */
  lemma CascadeIsOneSided(s: Tank, kind: Kind)
    requires LiveOf(s.reqs, Queue(s, kind)) == []
    ensures Cascade(s) == WithQueue(Serve(s, Other(kind)).0, kind, [])
    ensures Rounds(s) <= 2
  {
    var (s', served) := Serve(s, Other(kind));
    var end := WithQueue(s', kind, []);
    ServeIgnoresOther(s, Other(kind), []);
    ServeKeepsCancellations(s, Other(kind));
    ServeShrinks(s, Other(kind));
    LiveOfFrame(s.reqs, s'.reqs, Queue(s, kind));
    ServeDead(s, kind);
    ServeDead(s', kind);
    ServeBlocks(s, Other(kind));
  }

  function Sum(ws: seq<Waiter>, n: nat): real
    requires n <= |ws|
  {
    if n == 0 then 0.0 else ws[0].amount + Sum(ws[1..], n - 1)
  }

  /** What one side can still take: the level for gets, the free space for puts. */
  function Stock(s: Tank, kind: Kind): real {
    if kind.Get? then s.level else s.capacity - s.level
  }

  function ReqsOf(ws: seq<Waiter>): seq<nat> {
    if ws == [] then [] else [ws[0].req] + ReqsOf(ws[1..])
  }

  lemma {:induction false} SumPositive(ws: seq<Waiter>, n: nat)
    requires n <= |ws| && forall k :: 0 <= k < |ws| ==> ws[k].amount > 0.0
    ensures Sum(ws, n) >= 0.0
  {
    if n > 0 { SumPositive(ws[1..], n - 1); }
  }

  /** Serving `kind` commits, in order, the first `n` live waiters, and these are the longest
      prefix whose amounts fit the stock together. */
  ghost predicate ServesLongestPrefix(s: Tank, kind: Kind, n: nat) {
    var live := LiveOf(s.reqs, Queue(s, kind)); var (s', served) := Serve(s, kind);
    && LongestFit(live, n, Stock(s, kind))
    && s'.commits == s.commits + ReqsOf(live[..n])
    && Stock(s', kind) == Stock(s, kind) - Sum(live, n)
    && LiveOf(s'.reqs, Queue(s', kind)) == live[n..]
    && (served <==> n > 0)
  }

  lemma PrefixGrows(w: Waiter, rest: seq<Waiter>, n: nat)
    requires n <= |rest|
    ensures var live := [w] + rest;
            && live[1..] == rest && live[n + 1..] == rest[n..]
            && ReqsOf(live[..n + 1]) == [w.req] + ReqsOf(rest[..n])
            && Sum(live, n + 1) == w.amount + Sum(rest, n)
  {
    var live := [w] + rest;
    assert live[1..] == rest && live[n + 1..] == rest[n..];
    assert live[..n + 1][1..] == rest[..n];
  }

  lemma CommitHeadServes(s: Tank, kind: Kind, n: nat)
    requires Queue(s, kind) != [] && !Dead(s, Queue(s, kind)[0]) && Fits(s, kind, Queue(s, kind)[0].amount)
    requires Queue(s, kind)[0].amount > 0.0 && ServesLongestPrefix(CommitHead(s, kind), kind, n)
    ensures ServesLongestPrefix(s, kind, n + 1)
  {
    hide LongestFit, Sum, ReqsOf, Dead;
    var q := Queue(s, kind);
    var t := CommitHead(s, kind);
    var live, rest := LiveOf(s.reqs, q), LiveOf(t.reqs, q[1..]);
    LiveOfFrame(s.reqs, t.reqs, q[1..]);
    assert Queue(t, kind) == q[1..];
    assert live == [q[0]] + rest by { HeadIsLive(s, q); }
    LongestFitBound(rest, n, Stock(t, kind));
    PrefixGrows(q[0], rest, n);
    OneMoreFits(live, n, Stock(s, kind));
  }

  lemma HeadIsLive(s: Tank, q: seq<Waiter>)
    requires q != [] && !Dead(s, q[0])
    ensures LiveOf(s.reqs, q) == [q[0]] + LiveOf(s.reqs, q[1..])
  {
  }

  lemma LongestFitBound(ws: seq<Waiter>, n: nat, stock: real)
    requires LongestFit(ws, n, stock)
    ensures n <= |ws|
  {
  }

  lemma CommitHeadStock(s: Tank, kind: Kind)
    requires Queue(s, kind) != [] && Fits(s, kind, Queue(s, kind)[0].amount)
    ensures Stock(CommitHead(s, kind), kind) == Stock(s, kind) - Queue(s, kind)[0].amount >= 0.0
  {
  }

  lemma PopDeadServes(s: Tank, kind: Kind, n: nat)
    requires Queue(s, kind) != [] && Dead(s, Queue(s, kind)[0]) && ServesLongestPrefix(PopHead(s, kind), kind, n)
    ensures ServesLongestPrefix(s, kind, n)
  {
    hide LongestFit, Sum, ReqsOf;
  }

  lemma {:induction false} ServeLongestPrefix(s: Tank, kind: Kind) returns (n: nat)
    requires forall k :: 0 <= k < |Queue(s, kind)| ==> Queue(s, kind)[k].amount > 0.0
    requires Stock(s, kind) >= 0.0
    ensures ServesLongestPrefix(s, kind, n)
    decreases |Queue(s, kind)|
  {
    hide LongestFit, CommitHead;
    var q := Queue(s, kind);
    var live := LiveOf(s.reqs, q);
    if q != [] { HeadsShrink(s, kind); }
    LiveAmounts(s.reqs, q);
    if q == [] {
      n := 0;
      NothingFits(live, Stock(s, kind));
    } else if Dead(s, q[0]) {
      assert forall k :: 0 <= k < |q[1..]| ==> q[1..][k] == q[k + 1];
      n := ServeLongestPrefix(PopHead(s, kind), kind);
      PopDeadServes(s, kind, n);
    } else if Fits(s, kind, q[0].amount) {
      assert forall k :: 0 <= k < |q[1..]| ==> q[1..][k] == q[k + 1];
      CommitHeadStock(s, kind);
      var n' := ServeLongestPrefix(CommitHead(s, kind), kind);
      n := n' + 1;
      CommitHeadServes(s, kind, n');
    } else {
      n := 0;
      NothingFits(live, Stock(s, kind));
    }
  }

  /** The first `n` waiters fit the stock together, and no more than that do. */
  ghost predicate LongestFit(ws: seq<Waiter>, n: nat, stock: real) {
    n <= |ws| && forall m :: 0 <= m <= |ws| ==> (m <= n <==> Sum(ws, m) <= stock)
  }

  lemma NothingFits(ws: seq<Waiter>, stock: real)
    requires forall k :: 0 <= k < |ws| ==> ws[k].amount > 0.0
    requires 0.0 <= stock && (ws == [] || ws[0].amount > stock)
    ensures LongestFit(ws, 0, stock)
  {
    forall m | 0 < m <= |ws| ensures Sum(ws, m) > stock {
      SumPositive(ws[1..], m - 1);
    }
  }

  lemma OneMoreFits(ws: seq<Waiter>, n: nat, stock: real)
    requires ws != [] && ws[0].amount > 0.0 && 0.0 <= stock - ws[0].amount
    requires LongestFit(ws[1..], n, stock - ws[0].amount)
    ensures LongestFit(ws, n + 1, stock)
  {
    forall m | 0 <= m <= |ws| ensures m <= n + 1 <==> Sum(ws, m) <= stock {
      if m > 0 { assert Sum(ws, m) == ws[0].amount + Sum(ws[1..], m - 1); }
    }
  }

  lemma {:induction false} LiveAmounts(reqs: seq<Request>, q: seq<Waiter>)
    requires forall k :: 0 <= k < |q| ==> q[k].amount > 0.0
    ensures forall k :: 0 <= k < |LiveOf(reqs, q)| ==> LiveOf(reqs, q)[k].amount > 0.0
  {
    if q != [] { LiveAmounts(reqs, q[1..]); }
  }

  lemma OppositeAmounts(s: Tank, i: nat)
    requires Inv(s) && i < |s.reqs|
    ensures var q := Queue(s, Other(s.reqs[i].kind)); forall k :: 0 <= k < |q| ==> q[k].amount > 0.0
    ensures Immediate(s, i) ==> Stock(CommitFresh(s, i), Other(s.reqs[i].kind)) >= 0.0
  {
    hide CommitsInv, Fifo;
    assert QueueInv(s.reqs, Queue(s, Other(s.reqs[i].kind)), Other(s.reqs[i].kind));
  }

  lemma NothingLeft(s: Tank, kind: Kind)
    ensures var s' := WithQueue(s, kind, []);
            && Queue(s', kind) == [] && Queue(s', Other(kind)) == Queue(s, Other(kind))
            && s'.reqs == s.reqs && s'.commits == s.commits
  {
  }

  /** A request that takes the immediate path of a reachable container commits first; then only
      the opposite queue is served, by exactly its longest live prefix that fits. */
  lemma ImmediateServesOpposite(s: Tank, i: nat) returns (n: nat)
    requires Inv(s) && Enabled(s, Poll(i)) && Immediate(s, i)
    ensures var r := s.reqs[i]; var opposite := Other(r.kind);
            var live := LiveOf(s.reqs, Queue(s, opposite)); var s' := Step(s, Poll(i));
            && n <= |live|
            && LongestFit(live, n, Stock(s, opposite) + r.amount)
            && s'.commits == s.commits + [i] + ReqsOf(live[..n])
            && LiveOf(s'.reqs, Queue(s', opposite)) == live[n..]
            && Queue(s', r.kind) == []
            && Rounds(CommitFresh(s, i)) <= 2
  {
    hide LongestFit, Cascade, Rounds, LiveOf, ReqsOf, Serve, Inv, HasLive;
    var r := s.reqs[i];
    var t := CommitFresh(s, i);
    NoneLive(s, Queue(s, r.kind));
    LiveOfFrame(s.reqs, t.reqs, Queue(s, r.kind));
    LiveOfFrame(s.reqs, t.reqs, Queue(s, Other(r.kind)));
    CascadeIsOneSided(t, r.kind);
    OppositeAmounts(s, i);
    n := ServeLongestPrefix(t, Other(r.kind));
    LongestFitBound(LiveOf(s.reqs, Queue(s, Other(r.kind))), n, Stock(t, Other(r.kind)));
    NothingLeft(Serve(t, Other(r.kind)).0, r.kind);
  }

  // ----- Being stuck -----

  ghost predicate FirstFits(s: Tank, kind: Kind) {
    var live := LiveOf(s.reqs, Queue(s, kind));
    live != [] && Fits(s, kind, live[0].amount)
  }

  /** Neither side has a live waiter that could be served now. */
  ghost predicate Quiescent(s: Tank) {
    !FirstFits(s, Get) && !FirstFits(s, Put)
  }

  lemma ServeBlocksLive(s: Tank, kind: Kind)
    ensures !FirstFits(Serve(s, kind).0, kind)
  {
    ServeBlocks(s, kind);
  }

  /** Every cascade ends quiescent, whatever was canceled before. */
  lemma {:induction false} CascadeIsQuiescent(s: Tank)
    ensures Quiescent(Cascade(s))
    decreases |s.gets| + |s.puts|
  {
    var (s1, gotten) := Serve(s, Get);
    var (s2, put) := Serve(s1, Put);
    ServeShrinks(s, Get);
    ServeShrinks(s1, Put);
    if gotten || put {
      CascadeIsQuiescent(s2);
    } else {
      ServeBlocksLive(s, Get);
      ServeBlocksLive(s1, Put);
    }
  }

  lemma {:induction false} LiveOfAppend(reqs: seq<Request>, q: seq<Waiter>, w: Waiter)
    requires w.req < |reqs| && !reqs[w.req].canceled
    ensures LiveOf(reqs, q + [w]) == LiveOf(reqs, q) + [w]
  {
    if q == [] {
      assert [w][1..] == [];
    } else {
      assert (q + [w])[1..] == q[1..] + [w];
      LiveOfAppend(reqs, q[1..], w);
    }
  }

  lemma ParkStaysQuiescent(s: Tank, i: nat)
    requires Inv(s) && Quiescent(s) && Enabled(s, Poll(i))
    requires !s.reqs[i].done && !s.reqs[i].registered && !Immediate(s, i)
    ensures Quiescent(Park(s, i))
  {
    var r := s.reqs[i];
    var s' := Park(s, i);
    var q := Queue(s, r.kind);
    NoneLive(s, q);
    LiveOfFrame(s.reqs, s'.reqs, q);
    LiveOfFrame(s.reqs, s'.reqs, Queue(s, Other(r.kind)));
    LiveOfAppend(s'.reqs, q, Waiter(i, r.amount));
  }

  /** Only dropping a parked request can leave a serviceable waiter behind; every immediate commit
      repairs that. */
  lemma StepQuiescent(s: Tank, a: Action)
    requires Inv(s) && Enabled(s, a)
    ensures a.Poll? && Immediate(s, a.i) ==> Quiescent(Step(s, a))
    ensures Quiescent(s) && !(a.DropRequest? && s.reqs[a.i].registered && !s.reqs[a.i].done) ==> Quiescent(Step(s, a))
  {
    var s' := Step(s, a);
    if a.Poll? && Immediate(s, a.i) {
      CascadeIsQuiescent(CommitFresh(s, a.i));
    } else if Quiescent(s) && a.Poll? && !s.reqs[a.i].done && !s.reqs[a.i].registered {
      ParkStaysQuiescent(s, a.i);
    } else if a.New? {
      LiveOfGrow(s.reqs, s'.reqs, s.gets);
      LiveOfGrow(s.reqs, s'.reqs, s.puts);
    } else if !(a.DropRequest? && s.reqs[a.i].registered && !s.reqs[a.i].done) {
      LiveOfFrame(s.reqs, s'.reqs, s.gets);
      LiveOfFrame(s.reqs, s'.reqs, s.puts);
    }
  }

  lemma {:induction false} LiveOfGrow(reqs: seq<Request>, reqs': seq<Request>, q: seq<Waiter>)
    requires reqs <= reqs' && forall k :: 0 <= k < |q| ==> q[k].req < |reqs|
    ensures LiveOf(reqs', q) == LiveOf(reqs, q)
  {
    if q != [] {
      assert forall k :: 0 <= k < |q[1..]| ==> q[1..][k] == q[k + 1];
      LiveOfGrow(reqs, reqs', q[1..]);
    }
  }

  /** Dropping a parked request leaves a serviceable waiter behind exactly when it was the first
      live one of its queue and the next live one fits the present level. */
  lemma DropQuiescent(s: Tank, i: nat)
    requires Inv(s) && Quiescent(s) && Enabled(s, DropRequest(i))
    requires s.reqs[i].registered && !s.reqs[i].done
    ensures var r := s.reqs[i]; var live := LiveOf(s.reqs, Queue(s, r.kind));
            Quiescent(Step(s, DropRequest(i))) <==>
              !(|live| > 1 && live[0].req == i && Fits(s, r.kind, live[1].amount))
  {
    hide QueueInv, FlagsInv, CommitsInv, Fifo, LevelInv;
    var r := s.reqs[i];
    var s' := Step(s, DropRequest(i));
    var q, other := Queue(s, r.kind), Queue(s, Other(r.kind));
    DistinctRequests(s.reqs, q, r.kind);
    DistinctRequests(s.reqs, other, Other(r.kind));
    ParkedIsLive(s, i);
    LiveOfCancel(s.reqs, s'.reqs, q, i);
    LiveOfCancel(s.reqs, s'.reqs, other, i);
    assert Queue(s', Get) == s.gets && Queue(s', Put) == s.puts;
    assert !FirstFits(s', Other(r.kind)) && !FirstFits(s, r.kind);
    assert Quiescent(s') <==> !FirstFits(s', r.kind);
  }

  lemma ParkedIsLive(s: Tank, i: nat)
    requires Inv(s) && i < |s.reqs| && s.reqs[i].registered && !s.reqs[i].done && !s.reqs[i].dropped
    ensures !s.reqs[i].canceled
  {
  }

  /** Canceling `i` takes it out of the live waiters, and out of nowhere else. */
  lemma {:induction false} LiveOfCancel(reqs: seq<Request>, reqs': seq<Request>, q: seq<Waiter>, i: nat)
    requires i < |reqs| == |reqs'| && !reqs[i].canceled && reqs'[i].canceled
    requires forall k :: 0 <= k < |reqs| && k != i ==> reqs'[k].canceled == reqs[k].canceled
    ensures (forall k :: 0 <= k < |q| ==> q[k].req != i) ==> LiveOf(reqs', q) == LiveOf(reqs, q)
    ensures (forall a, b :: 0 <= a < b < |q| ==> q[a].req != q[b].req) ==>
              var live := LiveOf(reqs, q); var live' := LiveOf(reqs', q);
              && (live != [] && live[0].req == i ==> live' == live[1..])
              && (live != [] && live[0].req != i ==> live' != [] && live'[0] == live[0])
              && (live == [] ==> live' == [])
  {
    if q != [] {
      LiveOfCancel(reqs, reqs', q[1..], i);
      assert forall k :: 0 <= k < |q[1..]| ==> q[1..][k] == q[k + 1];
    }
  }

  lemma DistinctRequests(reqs: seq<Request>, q: seq<Waiter>, kind: Kind)
    requires QueueInv(reqs, q, kind)
    ensures forall a, b :: 0 <= a < b < |q| ==> q[a].req != q[b].req
    ensures forall k :: 0 <= k < |q| ==> q[k].req < |reqs| && reqs[q[k].req].kind == kind
  {
  }

  /** A drop that leaves a serviceable waiter parked. */
  ghost predicate Strands(s: Tank, a: Action)
    requires Enabled(s, a)
  {
    && a.DropRequest? && s.reqs[a.i].registered && !s.reqs[a.i].done
    && var kind := s.reqs[a.i].kind; var live := LiveOf(s.reqs, Queue(s, kind));
       |live| > 1 && live[0].req == a.i && Fits(s, kind, live[1].amount)
  }

  ghost predicate QuiescentThroughout(s: Tank, acts: seq<Action>)
    requires ValidRun(s, acts)
    decreases |acts|
  {
    Quiescent(s) && (acts == [] || QuiescentThroughout(Step(s, acts[0]), acts[1..]))
  }

  ghost predicate SomewhereStrands(s: Tank, acts: seq<Action>)
    requires ValidRun(s, acts)
    decreases |acts|
  {
    acts != [] && (Strands(s, acts[0]) || SomewhereStrands(Step(s, acts[0]), acts[1..]))
  }

  lemma StepStrands(s: Tank, a: Action)
    requires Inv(s) && Quiescent(s) && Enabled(s, a)
    ensures Quiescent(Step(s, a)) <==> !Strands(s, a)
  {
    hide Inv, Quiescent, Step;
    StepQuiescent(s, a);
    if a.DropRequest? && s.reqs[a.i].registered && !s.reqs[a.i].done {
      DropQuiescent(s, a.i);
    }
  }

  lemma {:induction false} QuiescentFrom(s: Tank, acts: seq<Action>)
    requires Inv(s) && Quiescent(s) && ValidRun(s, acts)
    ensures QuiescentThroughout(s, acts) <==> !SomewhereStrands(s, acts)
    decreases |acts|
  {
    hide Inv, Quiescent, Step, Strands, Enabled;
    if acts != [] {
      StepStrands(s, acts[0]);
      StepKeepsInv(s, acts[0]);
      if Quiescent(Step(s, acts[0])) {
        QuiescentFrom(Step(s, acts[0]), acts[1..]);
      }
    }
  }

  /** No live waiter is ever left serviceable in exactly the runs in which no drop takes away the
      first live waiter of a queue whose next one fits. */
  lemma QuiescenceLaw(capacity: real, initial: real, acts: seq<Action>)
    requires 0.0 <= initial <= capacity && ValidRun(Init(capacity, initial), acts)
    ensures QuiescentThroughout(Init(capacity, initial), acts) <==> !SomewhereStrands(Init(capacity, initial), acts)
  {
    hide Inv, Quiescent, Init, ValidRun, QuiescentThroughout, SomewhereStrands;
    InitInv(capacity, initial);
    InitQuiescent(capacity, initial);
    QuiescentFrom(Init(capacity, initial), acts);
  }

  lemma InitQuiescent(capacity: real, initial: real)
    ensures Quiescent(Init(capacity, initial))
  {
  }

  function Asking(amount: real): Request {
    Request(0, Get, amount, false, false, false, false, false, 0)
  }

  /** Two gets park, the first too large, the second behind it; the first is dropped. The second
      now fits the level and is first, and nothing serves it until the level next changes. */
  lemma DropStrandsAWaiter()
    ensures var s := Park(Park(Init(10.0, 5.0).(reqs := [Asking(7.0), Asking(3.0)]), 0), 1);
            && Run(Init(10.0, 5.0), [New(0, Get, 7.0), New(0, Get, 3.0), Poll(0), Poll(1)]) == s
            && Quiescent(s) && Enabled(s, DropRequest(0)) && !Quiescent(Step(s, DropRequest(0)))
  {
    var s0 := Init(10.0, 5.0);
    var acts := [New(0, Get, 7.0), New(0, Get, 3.0), Poll(0), Poll(1)];
    var s2 := s0.(reqs := [Asking(7.0), Asking(3.0)]);
    assert Step(s0, acts[0]).reqs == [Asking(7.0)];
    assert Step(Step(s0, acts[0]), acts[1]) == s2;
    var s3 := Park(s2, 0);
    assert Step(s2, acts[2]) == s3;
    assert s3.gets == [Waiter(0, 7.0)] && !Dead(s3, s3.gets[0]);
    var s4 := Park(s3, 1);
    assert Step(s3, acts[3]) == s4;
    RunFour(s0, s0.(reqs := [Asking(7.0)]), s2, s3, s4, acts);
    var w0, w1 := Waiter(0, 7.0), Waiter(1, 3.0);
    assert s4.gets == [w0, w1] && s4.puts == [];
    LiveOfTwo(s4, w0, w1);
    var s5 := Step(s4, DropRequest(0));
    assert s5.gets == [w0, w1];
    LiveOfTwo(s5, w0, w1);
  }

  lemma RunFour(s0: Tank, s1: Tank, s2: Tank, s3: Tank, s4: Tank, acts: seq<Action>)
    requires |acts| == 4
    requires Enabled(s0, acts[0]) && Step(s0, acts[0]) == s1 && Enabled(s1, acts[1]) && Step(s1, acts[1]) == s2
    requires Enabled(s2, acts[2]) && Step(s2, acts[2]) == s3 && Enabled(s3, acts[3]) && Step(s3, acts[3]) == s4
    ensures ValidRun(s0, acts) && Run(s0, acts) == s4
  {
    hide Step, Enabled;
    RunCons(s3, acts[3], []);
    RunCons(s2, acts[2], [acts[3]]);
    RunCons(s1, acts[1], [acts[2], acts[3]]);
    RunCons(s0, acts[0], [acts[1], acts[2], acts[3]]);
    assert [acts[3]] + [] == [acts[3]] && [acts[2]] + [acts[3]] == [acts[2], acts[3]];
    assert [acts[1]] + [acts[2], acts[3]] == [acts[1], acts[2], acts[3]];
    assert [acts[0]] + [acts[1], acts[2], acts[3]] == acts;
  }

  lemma RunCons(s: Tank, a: Action, rest: seq<Action>)
    requires Enabled(s, a) && ValidRun(Step(s, a), rest)
    ensures ValidRun(s, [a] + rest) && Run(s, [a] + rest) == Run(Step(s, a), rest)
  {
    hide Step, Enabled;
    assert ([a] + rest)[1..] == rest;
  }

  lemma LiveOfTwo(s: Tank, a: Waiter, b: Waiter)
    requires a.req < |s.reqs| && b.req < |s.reqs| && !s.reqs[b.req].canceled
    ensures LiveOf(s.reqs, [a, b]) == if s.reqs[a.req].canceled then [b] else [a, b]
    ensures LiveOf(s.reqs, []) == []
  {
    assert [a, b][1..] == [b] && [b][1..] == [];
    assert LiveOf(s.reqs, [b]) == [b];
  }

  /** Both sides have a live waiter. */
  ghost predicate Deadlocked(s: Tank) {
    LiveOf(s.reqs, s.gets) != [] && LiveOf(s.reqs, s.puts) != []
  }

  ghost predicate DeadlockedThroughout(s: Tank, acts: seq<Action>)
    requires ValidRun(s, acts)
    decreases |acts|
  {
    Deadlocked(s) && (acts == [] || DeadlockedThroughout(Step(s, acts[0]), acts[1..]))
  }

  lemma NewStaysDeadlocked(s: Tank, a: Action)
    requires Inv(s) && Deadlocked(s) && Enabled(s, a) && a.New?
    ensures Deadlocked(Step(s, a))
  {
    var s' := Step(s, a);
    LiveOfGrow(s.reqs, s'.reqs, s.gets);
    LiveOfGrow(s.reqs, s'.reqs, s.puts);
  }

  lemma ParkStaysDeadlocked(s: Tank, i: nat)
    requires Inv(s) && Deadlocked(s) && Enabled(s, Poll(i)) && !s.reqs[i].done && !s.reqs[i].registered
    ensures Deadlocked(Park(s, i))
  {
    hide Inv;
    var s' := Park(s, i);
    LiveOfFrame(s.reqs, s'.reqs, s.gets);
    LiveOfFrame(s.reqs, s'.reqs, s.puts);
    UnparkedIsNotCanceled(s, i);
    LiveOfAppend(s'.reqs, Queue(s, s.reqs[i].kind), Waiter(i, s.reqs[i].amount));
  }

  lemma UnparkedIsNotCanceled(s: Tank, i: nat)
    requires Inv(s) && i < |s.reqs| && !s.reqs[i].registered
    ensures !s.reqs[i].canceled
  {
  }

  lemma PollStaysDeadlocked(s: Tank, i: nat)
    requires Inv(s) && Deadlocked(s) && Enabled(s, Poll(i))
    ensures var s' := Step(s, Poll(i)); s'.level == s.level && s'.commits == s.commits && Deadlocked(s')
  {
    hide Inv;
    var s' := Step(s, Poll(i));
    NoneLive(s, s.gets);
    NoneLive(s, s.puts);
    if !s.reqs[i].done && !s.reqs[i].registered {
      ParkStaysDeadlocked(s, i);
    } else {
      LiveOfFrame(s.reqs, s'.reqs, s.gets);
      LiveOfFrame(s.reqs, s'.reqs, s.puts);
    }
  }

  /** No poll can move a container with a live waiter on both sides. */
  lemma StepFrozen(s: Tank, a: Action)
    requires Inv(s) && Deadlocked(s) && Enabled(s, a)
    ensures var s' := Step(s, a); s'.level == s.level && s'.commits == s.commits
    ensures !a.DropRequest? ==> Deadlocked(Step(s, a))
  {
    hide Inv, Deadlocked, PollRequest;
    match a
    case New(_, _, _) => NewStaysDeadlocked(s, a);
    case Poll(i) => PollStaysDeadlocked(s, i);
    case DropRequest(_) =>
  }

  /** Level and commits stand still until drops have canceled every live waiter of one side. */
  lemma {:induction false} RunFrozen(s: Tank, acts: seq<Action>)
    requires Inv(s) && ValidRun(s, acts) && DeadlockedThroughout(s, acts)
    ensures var s' := Run(s, acts); s'.level == s.level && s'.commits == s.commits
    decreases |acts|
  {
    if acts != [] {
      StepFrozen(s, acts[0]);
      StepKeepsInv(s, acts[0]);
      RunFrozen(Step(s, acts[0]), acts[1..]);
    }
  }
}
