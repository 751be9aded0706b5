/** Container: a level between two strictly first-in first-out queues of requests. */
module Containers {
  datatype Kind = Get | Put

  /** `finished`: a poll has returned Ready. `arrival` numbers first polls and is history. */
  datatype Request = Request(owner: nat, kind: Kind, amount: real, registered: bool, done: bool,
                             canceled: bool, dropped: bool, finished: bool, arrival: nat)

  datatype Waiter = Waiter(req: nat, amount: real)

  /** `initial`, `arrivals`, `commits` (requests in commit order) and `wakes` (processes in wake
      order) are history. */
  datatype Tank = Tank(capacity: real, initial: real, level: real,
                       gets: seq<Waiter>, puts: seq<Waiter>, reqs: seq<Request>,
                       arrivals: nat, commits: seq<nat>, wakes: seq<nat>)

  datatype Action =
    | New(owner: nat, kind: Kind, amount: real)
    | Poll(i: nat)
    | DropRequest(i: nat)

  function Init(capacity: real, level: real): Tank {
    Tank(capacity, level, level, [], [], [], 0, [], [])
  }

  function Queue(s: Tank, kind: Kind): seq<Waiter> {
    if kind.Get? then s.gets else s.puts
  }

  function WithQueue(s: Tank, kind: Kind, q: seq<Waiter>): Tank {
    if kind.Get? then s.(gets := q) else s.(puts := q)
  }

  function Other(kind: Kind): Kind {
    if kind.Get? then Put else Get
  }

  predicate Fits(s: Tank, kind: Kind, amount: real) {
    if kind.Get? then s.level >= amount else s.level + amount <= s.capacity
  }

  function Change(kind: Kind, amount: real): real {
    if kind.Get? then -amount else amount
  }

  predicate Dead(s: Tank, w: Waiter) {
    w.req < |s.reqs| && s.reqs[w.req].canceled
  }

  predicate HasLive(s: Tank, q: seq<Waiter>) {
    exists k :: 0 <= k < |q| && !Dead(s, q[k])
  }

  // ----- The cascade -----

  function PopHead(s: Tank, kind: Kind): Tank
    requires Queue(s, kind) != []
  {
    WithQueue(s, kind, Queue(s, kind)[1..])
  }

  /** Pops the head and commits it: the level moves and `done` is set before the waker runs. */
  function CommitHead(s: Tank, kind: Kind): Tank
    requires Queue(s, kind) != []
  {
    var w := Queue(s, kind)[0];
    var s' := PopHead(s, kind).(level := s.level + Change(kind, w.amount), commits := s.commits + [w.req]);
    if w.req < |s.reqs|
    then s'.(reqs := s.reqs[w.req := s.reqs[w.req].(done := true)],
             wakes := s.wakes + [s.reqs[w.req].owner])
    else s'
  }

  /** Serves the queue from its head while the head is dead or fits; reports any service. */
  function Serve(s: Tank, kind: Kind): (Tank, bool)
    decreases |Queue(s, kind)|
  {
    var q := Queue(s, kind);
    if q == [] then (s, false)
    else if Dead(s, q[0]) then Serve(PopHead(s, kind), kind)
    else if Fits(s, kind, q[0].amount) then (Serve(CommitHead(s, kind), kind).0, true)
    else (s, false)
  }

  lemma {:induction false} ServeShrinks(s: Tank, kind: Kind)
    ensures var (s', served) := Serve(s, kind);
            && |Queue(s', kind)| <= |Queue(s, kind)| && (served ==> |Queue(s', kind)| < |Queue(s, kind)|)
            && Queue(s', Other(kind)) == Queue(s, Other(kind))
            && s'.capacity == s.capacity && s'.initial == s.initial && |s'.reqs| == |s.reqs| && s'.arrivals == s.arrivals
            && (!served ==> s'.level == s.level && s'.reqs == s.reqs && s'.commits == s.commits && s'.wakes == s.wakes)
    decreases |Queue(s, kind)|
  {
    var q := Queue(s, kind);
    if q == [] {
    } else if Dead(s, q[0]) {
      ServeShrinks(PopHead(s, kind), kind);
    } else if Fits(s, kind, q[0].amount) {
      ServeShrinks(CommitHead(s, kind), kind);
    }
  }

  /** Alternates the two queues until a pass serves nobody. */
  function Cascade(s: Tank): Tank
    decreases |s.gets| + |s.puts|
  {
    var (s1, gotten) := Serve(s, Get);
    var (s2, put) := Serve(s1, Put);
    ServeShrinks(s, Get);
    ServeShrinks(s1, Put);
    if !gotten && !put then s2 else Cascade(s2)
  }

  /** What serving does with the head of the queue. */
  lemma ServeHead(s: Tank, kind: Kind)
    ensures var q := Queue(s, kind);
            Serve(s, kind) ==
            if q == [] then (s, false)
            else if Dead(s, q[0]) then Serve(PopHead(s, kind), kind)
            else if Fits(s, kind, q[0].amount) then (Serve(CommitHead(s, kind), kind).0, true)
            else (s, false)
  {
  }

  /** One round of the cascade: it is the last if it serves nobody, and otherwise takes entries away. */
  lemma CascadeRound(s: Tank)
    ensures var (s1, gotten) := Serve(s, Get); var (s2, put) := Serve(s1, Put);
            && Cascade(s) == (if gotten || put then Cascade(s2) else s2)
            && (gotten || put ==> |s2.gets| + |s2.puts| < |s.gets| + |s.puts|)
  {
    ServeShrinks(s, Get);
    ServeShrinks(Serve(s, Get).0, Put);
  }

  // ----- Actions -----

  /** The constructors of requests reject an amount that is not positive or exceeds the capacity. */
  predicate Enabled(s: Tank, a: Action) {
    match a
    case New(_, _, amount) => 0.0 < amount <= s.capacity
    case Poll(i) => i < |s.reqs| && !s.reqs[i].dropped && !s.reqs[i].finished
    case DropRequest(i) => i < |s.reqs| && !s.reqs[i].dropped
  }

  /** The immediate path is taken. */
  predicate Immediate(s: Tank, i: nat)
    requires i < |s.reqs|
  {
    var r := s.reqs[i];
    !r.done && !r.registered && Fits(s, r.kind, r.amount) && !HasLive(s, Queue(s, r.kind))
  }

  function CommitFresh(s: Tank, i: nat): Tank
    requires i < |s.reqs|
  {
    var r := s.reqs[i];
    s.(level := s.level + Change(r.kind, r.amount), commits := s.commits + [i], arrivals := s.arrivals + 1,
       reqs := s.reqs[i := r.(arrival := s.arrivals, finished := true)])
  }

  function Park(s: Tank, i: nat): Tank
    requires i < |s.reqs|
  {
    var r := s.reqs[i];
    WithQueue(s, r.kind, Queue(s, r.kind) + [Waiter(i, r.amount)])
      .(arrivals := s.arrivals + 1,
        reqs := s.reqs[i := r.(arrival := s.arrivals, registered := true)])
  }

  function PollRequest(s: Tank, i: nat): Tank
    requires i < |s.reqs|
  {
    if s.reqs[i].done then s.(reqs := s.reqs[i := s.reqs[i].(finished := true)])
    else if Immediate(s, i) then Cascade(CommitFresh(s, i))
    else if !s.reqs[i].registered then Park(s, i)
    else s
  }

  function Step(s: Tank, a: Action): Tank
    requires Enabled(s, a)
  {
    match a
    case New(owner, kind, amount) =>
      s.(reqs := s.reqs + [Request(owner, kind, amount, false, false, false, false, false, 0)])
    case Poll(i) => PollRequest(s, i)
    case DropRequest(i) =>
      var r := s.reqs[i];
      s.(reqs := s.reqs[i := r.(dropped := true, canceled := r.canceled || (r.registered && !r.done))])
  }

  // ----- What the container keeps -----

  ghost predicate Committed(r: Request) {
    r.done || r.finished
  }

  ghost predicate Arrived(r: Request) {
    r.registered || r.finished
  }

  ghost predicate Queued(q: seq<Waiter>, i: nat) {
    exists k :: 0 <= k < |q| && q[k].req == i
  }

  ghost predicate FlagsInv(reqs: seq<Request>, capacity: real, arrivals: nat) {
    && (forall i :: 0 <= i < |reqs| ==>
          var r := reqs[i];
          && 0.0 < r.amount <= capacity
          && (r.done ==> r.registered)
          && (r.canceled ==> r.registered && !r.done && r.dropped)
          && (r.finished && r.registered ==> r.done)
          && (r.registered && !r.done && r.dropped ==> r.canceled)
          && (Arrived(r) ==> r.arrival < arrivals))
    && (forall i, j :: 0 <= i < j < |reqs| && Arrived(reqs[i]) && Arrived(reqs[j]) ==>
          reqs[i].arrival != reqs[j].arrival)
  }

  /** The queue of one kind: its entries, in order of first poll, and every live waiter in it. */
  ghost predicate QueueInv(reqs: seq<Request>, q: seq<Waiter>, kind: Kind) {
    && (forall k :: 0 <= k < |q| ==> q[k].req < |reqs| && Waits(reqs[q[k].req], kind, q[k].amount))
    && (forall i, j :: 0 <= i < j < |q| ==> q[i].req < |reqs| && q[j].req < |reqs| &&
                                            reqs[q[i].req].arrival < reqs[q[j].req].arrival)
    && (forall i :: 0 <= i < |reqs| && Waits(reqs[i], kind, reqs[i].amount) && !reqs[i].canceled ==> Queued(q, i))
  }

  ghost predicate Waits(r: Request, kind: Kind, amount: real) {
    r.kind == kind && r.amount == amount && r.registered && !r.done
  }

  function Total(reqs: seq<Request>, commits: seq<nat>): real {
    if commits == [] then 0.0
    else
      var last := commits[|commits| - 1];
      Total(reqs, commits[..|commits| - 1]) +
      if last < |reqs| then Change(reqs[last].kind, reqs[last].amount) else 0.0
  }

  ghost predicate CommitsInv(reqs: seq<Request>, commits: seq<nat>) {
    && (forall b :: 0 <= b < |commits| ==> commits[b] < |reqs| && Committed(reqs[commits[b]]))
    && (forall i :: 0 <= i < |reqs| && Committed(reqs[i]) ==> i in commits)
    && (forall a, b :: 0 <= a < b < |commits| ==> commits[a] != commits[b])
  }

  /** Request `i` came before `j` for the same side of the container. */
  ghost predicate Earlier(reqs: seq<Request>, i: nat, j: nat)
    requires i < |reqs| && j < |reqs|
  {
    Arrived(reqs[i]) && reqs[i].kind == reqs[j].kind && reqs[i].arrival < reqs[j].arrival
  }

  /** Whoever commits, everyone of the same kind first polled earlier had committed before or is
      canceled. */
  ghost predicate Fifo(reqs: seq<Request>, commits: seq<nat>) {
    forall b, i :: 0 <= b < |commits| && 0 <= i < |reqs| && commits[b] < |reqs| && Earlier(reqs, i, commits[b]) ==>
      reqs[i].canceled || i in commits[..b]
  }

  ghost predicate LevelInv(s: Tank) {
    0.0 <= s.level <= s.capacity && s.level == s.initial + Total(s.reqs, s.commits)
  }

  ghost predicate Inv(s: Tank) {
    && LevelInv(s)
    && FlagsInv(s.reqs, s.capacity, s.arrivals)
    && QueueInv(s.reqs, s.gets, Get) && QueueInv(s.reqs, s.puts, Put)
    && CommitsInv(s.reqs, s.commits) && Fifo(s.reqs, s.commits)
  }
}
