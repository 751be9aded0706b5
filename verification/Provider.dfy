/** The refill process as a resumable object over a container object. */
module Providers {
  import opened Wakers
  import opened Containers
  import opened ContainerResources
  import opened TokenBuckets

  class Refiller {
    const amount: real
    const owner: nat
    const bucket: Container
    var phase: Phase
    ghost var stamps: seq<real>

    ghost function View(now: real): Bucket
      reads this, bucket, bucket.requests, bucket.AllMarks()
    {
      Bucket(amount, owner, now, phase, bucket.View(), stamps)
    }

    ghost predicate Valid(now: real)
      reads this, bucket, bucket.requests, bucket.AllMarks()
    {
      bucket.Valid() && TokenBuckets.Inv(View(now))
    }

    /** A full bucket, and a refill process whose first timeout has just been created. */
    constructor (capacity: real, amount: real, owner: nat, now: real)
      requires 0.0 < amount <= capacity
      ensures Valid(now) && View(now) == Start(capacity, amount, owner, now)
    {
      hide Containers.Inv, TokenBuckets.Inv, Views, ParkedViews, Init;
      this.amount, this.owner := amount, owner;
      bucket := new Container(capacity, capacity);
      phase := Sleeping(now + 1.0);
      stamps := [];
      new;
      StartInv(capacity, amount, owner, now);
      assert View(now) == Start(capacity, amount, owner, now);
    }

    /** Polls the awaited put; once it has gone through, goes back to sleep. */
    method PollPut(i: nat, now: real, ready: ReadyQueue)
      requires bucket.Valid() && Containers.Enabled(bucket.View(), Containers.Action.Poll(i))
      modifies this`phase, this`stamps, bucket, bucket.requests, bucket.AllMarks()`done, ready
      ensures bucket.Valid()
      ensures View(now) == AfterPoll(TankMove(old(View(now)), Containers.Action.Poll(i)), i)
    {
      hide Containers.Inv, Step, Views, ParkedViews, TokenBuckets.Inv, Grows;
      ghost var moved := TankMove(View(now), Containers.Action.Poll(i));
      var put := bucket.requests[i];
      assert put.id == i;
      var done := bucket.Poll(put, ready);
      assert bucket.View() == moved.tank && moved.tank.reqs[i] == put.View();
      phase := if done then Sleeping(now + 1.0) else Putting(i);
      stamps := moved.stamps;
      assert bucket.View() == moved.tank;
    }

    /** One poll of the endless loop: nothing before the timeout is due; then a put, awaited. */
    method Resume(now: real, ready: ReadyQueue)
      requires Valid(now)
      modifies this`phase, this`stamps, bucket, bucket.requests, bucket.AllMarks()`done, ready
      ensures Valid(now) && TokenBuckets.Enabled(old(View(now)), Refill)
      ensures View(now) == Advance(old(View(now)), Refill)
    {
      hide Containers.Inv, Step, PollRequest, Views, ParkedViews;
      ghost var before := View(now);
      AdvanceKeepsInv(before, Refill);
      match phase
      case Sleeping(u) =>
        if now >= u {
          AskPutReady(before, u);
          var put := bucket.Request(owner, Put, amount);
          assert View(now) == AskPut(before);
          PollPut(put.id, now, ready);
        }
      case Putting(i) =>
        PollPut(i, now, ready);
    }
  }
}
