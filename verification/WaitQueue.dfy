/** The ordered queue of parked requests shared by the unit pools: the value model, its
    simple reference (a queue from which abandoned requests vanish at once), and the class. */
module Options {
  datatype Option<+T> = None | Some(value: T)
}

/** Waking a process appends its id to the shared ready queue. */
module Wakers {
  class ReadyQueue {
    var ids: seq<nat>

    constructor ()
      ensures ids == []
    {
      ids := [];
    }

    method Wake(process: nat)
      modifies this
      ensures ids == old(ids) + [process]
    {
      ids := ids + [process];
    }
  }
}

module WaitQueues {
  import opened Options
  import opened Wakers

  /** One parked requester. `req` names the request whose two shared cells the entry holds. */
  datatype Entry = Entry(key: nat, ticket: nat, req: nat)

  /** Entries are served in ascending (key, ticket) order. */
  predicate Before(a: Entry, b: Entry) {
    a.key < b.key || (a.key == b.key && a.ticket < b.ticket)
  }

  /** The heap is kept as the sequence in which `pop` would yield its entries. */
  ghost predicate Sorted(h: seq<Entry>) {
    forall i, j :: 0 <= i < j < |h| ==> Before(h[i], h[j])
  }

  /** `inUse` is an `int` here, so that a decrement below zero would be visible. */
  datatype Queue = Queue(capacity: nat, inUse: int, nextTicket: nat, heap: seq<Entry>)

  function Insert(h: seq<Entry>, e: Entry): seq<Entry> {
    if h == [] || Before(e, h[0]) then [e] + h else [h[0]] + Insert(h[1..], e)
  }

  function SkipDead(h: seq<Entry>, dead: set<nat>): seq<Entry> {
    if h == [] then [] else if h[0].req in dead then SkipDead(h[1..], dead) else h
  }

  function TryAcquire(q: Queue): (Queue, bool) {
    if q.inUse < q.capacity then (q.(inUse := q.inUse + 1), true) else (q, false)
  }

  function Register(q: Queue, key: nat, req: nat): Queue {
    q.(nextTicket := q.nextTicket + 1, heap := Insert(q.heap, Entry(key, q.nextTicket, req)))
  }

  /** Pops until a live entry is found and reports its request, which now owns the unit;
      frees the unit when every entry was dead. */
  function Release(q: Queue, dead: set<nat>): (Queue, Option<nat>) {
    var h := SkipDead(q.heap, dead);
    if h == [] then (q.(heap := [], inUse := q.inUse - 1), None)
    else (q.(heap := h[1..]), Some(h[0].req))
  }

  /** What the queue means: the entries of requests not yet abandoned, in service order. */
  function Live(h: seq<Entry>, dead: set<nat>): seq<Entry> {
    if h == [] then []
    else if h[0].req in dead then Live(h[1..], dead)
    else [h[0]] + Live(h[1..], dead)
  }

  ghost predicate Parked(h: seq<Entry>, req: nat) {
    exists k :: 0 <= k < |h| && h[k].req == req
  }

  /** Entries below the counter, in order, at most one for each request. */
  ghost predicate WellFormed(h: seq<Entry>, nextTicket: nat) {
    && Sorted(h)
    && (forall k :: 0 <= k < |h| ==> h[k].ticket < nextTicket)
    && (forall i, j :: 0 <= i < j < |h| ==> h[i].req != h[j].req)
  }

  // ----- Insertion -----

  lemma {:induction false} InsertElements(h: seq<Entry>, e: Entry)
    ensures |Insert(h, e)| == |h| + 1
    ensures forall x :: x in Insert(h, e) <==> x == e || x in h
  {
    if h == [] || Before(e, h[0]) {
    } else {
      InsertElements(h[1..], e);
    }
  }

  lemma {:induction false} InsertSplits(h: seq<Entry>, e: Entry) returns (k: nat)
    ensures k <= |h|
    ensures Insert(h, e) == h[..k] + [e] + h[k..]
    ensures forall i :: 0 <= i < k ==> !Before(e, h[i])
    ensures k < |h| ==> Before(e, h[k])
  {
    if h == [] || Before(e, h[0]) {
      k := 0;
    } else {
      var k' := InsertSplits(h[1..], e);
      k := k' + 1;
    }
  }

  /** A new entry goes behind every entry with a smaller or equal key and before every greater one. */
  lemma InsertPosition(h: seq<Entry>, nextTicket: nat, key: nat, req: nat) returns (k: nat)
    requires WellFormed(h, nextTicket)
    ensures k <= |h| && Insert(h, Entry(key, nextTicket, req)) == h[..k] + [Entry(key, nextTicket, req)] + h[k..]
    ensures forall i :: 0 <= i < k ==> h[i].key <= key
    ensures forall i :: k <= i < |h| ==> h[i].key > key
  {
    k := InsertSplits(h, Entry(key, nextTicket, req));
    assert k < |h| ==> h[k].key > key;
    assert forall i :: k < i < |h| ==> Before(h[k], h[i]);
  }

  lemma InsertKeepsParked(h: seq<Entry>, e: Entry, j: nat)
    requires Parked(h, j) || j == e.req
    ensures Parked(Insert(h, e), j)
  {
    InsertElements(h, e);
    var h' := Insert(h, e);
    var x := e;
    if j != e.req { var k :| 0 <= k < |h| && h[k].req == j; x := h[k]; }
    assert x in h';
    var k' :| 0 <= k' < |h'| && h'[k'] == x;
  }

  lemma InsertWellFormed(h: seq<Entry>, nextTicket: nat, key: nat, req: nat)
    requires WellFormed(h, nextTicket) && !Parked(h, req)
    ensures WellFormed(Insert(h, Entry(key, nextTicket, req)), nextTicket + 1)
  {
    var e := Entry(key, nextTicket, req);
    var k := InsertPosition(h, nextTicket, key, req);
    var r := Insert(h, e);
    assert forall i :: 0 <= i < |r| ==> r[i] == if i < k then h[i] else if i == k then e else h[i - 1];
    hide Insert;
    forall i, j | 0 <= i < j < |r| ensures Before(r[i], r[j]) && r[i].req != r[j].req {
      if i != k && j != k {
        assert Before(h[if i < k then i else i - 1], h[if j < k then j else j - 1]);
      }
    }
  }

  // ----- Live entries -----

  lemma PrependWellFormed(e: Entry, h: seq<Entry>, nextTicket: nat)
    requires WellFormed(h, nextTicket) && e.ticket < nextTicket
    requires forall k :: 0 <= k < |h| ==> Before(e, h[k]) && e.req != h[k].req
    ensures WellFormed([e] + h, nextTicket)
  {
  }

  lemma {:induction false} LiveElements(h: seq<Entry>, dead: set<nat>)
    ensures forall x :: x in Live(h, dead) <==> x in h && x.req !in dead
  {
    if h != [] { LiveElements(h[1..], dead); }
  }

  lemma {:induction false} LiveWellFormed(h: seq<Entry>, dead: set<nat>, nextTicket: nat)
    requires WellFormed(h, nextTicket)
    ensures WellFormed(Live(h, dead), nextTicket)
  {
    if h != [] {
      SuffixWellFormed(h, 1, nextTicket);
      LiveWellFormed(h[1..], dead, nextTicket);
      LiveElements(h[1..], dead);
      var rest := Live(h[1..], dead);
      forall j | 0 <= j < |rest|
        ensures Before(h[0], rest[j]) && h[0].req != rest[j].req
      {
        var k :| 0 <= k < |h[1..]| && h[1..][k] == rest[j];
        assert rest[j] == h[k + 1];
      }
      PrependWellFormed(h[0], rest, nextTicket);
    }
  }

  lemma {:induction false} LiveInsert(h: seq<Entry>, e: Entry, dead: set<nat>)
    requires Sorted(h) && e.req !in dead
    ensures Live(Insert(h, e), dead) == Insert(Live(h, dead), e)
  {
    if h == [] {
    } else if Before(e, h[0]) {
      assert ([e] + h)[1..] == h;
      var live := Live(h, dead);
      LiveElements(h, dead);
      if live != [] {
        assert live[0] in h;
        assert Before(e, live[0]);
      }
    } else {
      LiveInsert(h[1..], e, dead);
      assert ([h[0]] + Insert(h[1..], e))[1..] == Insert(h[1..], e);
      if h[0].req !in dead {
        assert ([h[0]] + Live(h[1..], dead))[1..] == Live(h[1..], dead);
      }
    }
  }

  /** Abandoning one more request is removing it from the live entries. */
  lemma {:induction false} LiveCancel(h: seq<Entry>, dead: set<nat>, req: nat)
    ensures Live(h, dead + {req}) == Live(Live(h, dead), {req})
  {
    if h != [] {
      LiveCancel(h[1..], dead, req);
      if h[0].req !in dead {
        assert ([h[0]] + Live(h[1..], dead))[1..] == Live(h[1..], dead);
      }
    }
  }

  lemma {:induction false} LiveIdentity(h: seq<Entry>, dead: set<nat>)
    requires forall k :: 0 <= k < |h| ==> h[k].req !in dead
    ensures Live(h, dead) == h
  {
    if h != [] {
      var rest := h[1..];
      assert h == [h[0]] + rest;
      forall k | 0 <= k < |rest| ensures rest[k].req !in dead {
        assert rest[k] == h[k + 1];
      }
      LiveIdentity(rest, dead);
    }
  }

  // ----- Popping -----

  lemma {:induction false} SkipDeadSuffix(h: seq<Entry>, dead: set<nat>) returns (k: nat)
    ensures k <= |h| && SkipDead(h, dead) == h[k..]
    ensures forall i :: 0 <= i < k ==> h[i].req in dead
    ensures k < |h| ==> h[k].req !in dead
  {
    if h == [] || h[0].req !in dead {
      k := 0;
    } else {
      var k' := SkipDeadSuffix(h[1..], dead);
      k := k' + 1;
    }
  }

  /** Lazily skipping dead entries serves the head of the eager queue. */
  lemma {:induction false} SkipDeadServesLiveHead(h: seq<Entry>, dead: set<nat>)
    ensures SkipDead(h, dead) == [] <==> Live(h, dead) == []
    ensures SkipDead(h, dead) != [] ==>
              var s := SkipDead(h, dead);
              && s[0] == Live(h, dead)[0] && s[0].req !in dead
              && Live(s[1..], dead) == Live(h, dead)[1..]
  {
    if h != [] && h[0].req in dead {
      SkipDeadServesLiveHead(h[1..], dead);
    }
  }

  lemma SuffixWellFormed(h: seq<Entry>, k: nat, nextTicket: nat)
    requires WellFormed(h, nextTicket) && k <= |h|
    ensures WellFormed(h[k..], nextTicket)
  {
  }

  // ----- The queue object -----

  /** The two cells a request future shares with its queue entry, with the id of the request
      and of the process that owns it. */
  class Cells {
    const request: nat
    const owner: nat
    var canceled: bool
    var granted: bool

    constructor (request: nat, owner: nat)
      ensures this.request == request && this.owner == owner && !canceled && !granted
    {
      this.request, this.owner := request, owner;
      canceled, granted := false, false;
    }
  }

  datatype Waiter = Waiter(key: nat, ticket: nat, cells: Cells)

  function EntryOf(w: Waiter): Entry {
    Entry(w.key, w.ticket, w.cells.request)
  }

  function Entries(ws: seq<Waiter>): seq<Entry> {
    seq(|ws|, i requires 0 <= i < |ws| => EntryOf(ws[i]))
  }

  function Push(ws: seq<Waiter>, w: Waiter): seq<Waiter> {
    if ws == [] || Before(EntryOf(w), EntryOf(ws[0])) then [w] + ws else [ws[0]] + Push(ws[1..], w)
  }

  lemma {:induction false} PushIsInsert(ws: seq<Waiter>, w: Waiter)
    ensures Entries(Push(ws, w)) == Insert(Entries(ws), EntryOf(w))
    ensures forall x :: x in Push(ws, w) <==> x == w || x in ws
  {
    if ws == [] || Before(EntryOf(w), EntryOf(ws[0])) {
      assert Entries([w] + ws) == [EntryOf(w)] + Entries(ws);
    } else {
      PushIsInsert(ws[1..], w);
      assert Entries(ws)[1..] == Entries(ws[1..]);
      assert Entries([ws[0]] + Push(ws[1..], w)) == [EntryOf(ws[0])] + Entries(Push(ws[1..], w));
    }
  }

  ghost function CellsOf(ws: seq<Waiter>): set<Cells> {
    set w | w in ws :: w.cells
  }

  class WaitQueue {
    const capacity: nat
    var inUse: nat
    var nextTicket: nat
    var waiters: seq<Waiter>

    constructor (capacity: nat)
      ensures View() == Queue(capacity, 0, 0, []) && waiters == []
    {
      this.capacity := capacity;
      inUse, nextTicket, waiters := 0, 0, [];
    }

    ghost function View(): Queue
      reads this
    {
      Queue(capacity, inUse, nextTicket, Entries(waiters))
    }

    /** `dead` is the set of requests whose `canceled` cell is set. */
    ghost predicate Knows(dead: set<nat>)
      reads this, CellsOf(waiters)
    {
      forall w :: w in waiters ==> (w.cells.canceled <==> w.cells.request in dead)
    }

    method Acquire() returns (acquired: bool)
      modifies this`inUse
      ensures (View(), acquired) == TryAcquire(old(View()))
    {
      acquired := inUse < capacity;
      if acquired { inUse := inUse + 1; }
    }

    method Park(key: nat, cells: Cells)
      modifies this`nextTicket, this`waiters
      ensures View() == Register(old(View()), key, cells.request)
      ensures forall w :: w in waiters <==> w in old(waiters) || w == Waiter(key, old(nextTicket), cells)
    {
      var w := Waiter(key, nextTicket, cells);
      PushIsInsert(waiters, w);
      nextTicket := nextTicket + 1;
      waiters := Push(waiters, w);
    }

    /** Hands one held unit to the next live waiter, or frees it. The caller owns a unit. */
    method ReleaseUnit(ready: ReadyQueue, ghost dead: set<nat>) returns (ghost next: Option<Cells>)
      requires inUse > 0 && Knows(dead)
      modifies this`inUse, this`waiters, CellsOf(waiters)`granted, ready
      ensures View() == Release(old(View()), dead).0
      ensures Release(old(View()), dead).1 == if next.None? then None else Some(next.value.request)
      ensures next.None? ==> ready.ids == old(ready.ids)
      ensures next.Some? ==>
                && next.value in old(CellsOf(waiters)) && next.value.granted
                && ready.ids == old(ready.ids) + [next.value.owner]
      ensures forall c :: c in old(CellsOf(waiters)) && Some(c) != next ==> c.granted == old(c.granted)
      ensures forall w :: w in waiters ==> w in old(waiters)
    {
      while |waiters| > 0
        invariant forall w :: w in waiters ==> w in old(waiters)
        invariant SkipDead(Entries(waiters), dead) == SkipDead(old(Entries(waiters)), dead)
        invariant inUse == old(inUse) && nextTicket == old(nextTicket) && ready.ids == old(ready.ids)
        invariant forall c :: c in old(CellsOf(waiters)) ==> c.granted == old(c.granted)
        decreases |waiters|
      {
        var entry := waiters[0];
        assert entry in waiters;
        assert Entries(waiters)[1..] == Entries(waiters[1..]);
        waiters := waiters[1..];
        if !entry.cells.canceled {
          entry.cells.granted := true;
          ready.Wake(entry.cells.owner);
          next := Some(entry.cells);
          return;
        }
      }
      inUse := inUse - 1;
      next := None;
    }
  }
}
