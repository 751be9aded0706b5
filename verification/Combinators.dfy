/** `Timeout` and the two combinators `AnyOf` and `AllOf` over timeouts: what one poll of each does. */
module Combinators {
  datatype Arm = Arm(deadline: real, scheduled: bool)

  /** `calls` are the times passed to `schedule_wakeup`, in order. */
  datatype Polled = Polled(arms: seq<Arm>, ready: bool, calls: seq<real>)

  function PollTimeout(a: Arm, now: real): (Arm, bool, seq<real>) {
    if a.scheduled && now >= a.deadline then (a, true, [])
    else (a.(scheduled := true), false, if a.scheduled then [] else [a.deadline])
  }

  /** Polls the arms in order, up to the first that is Ready. */
  function PollAny(arms: seq<Arm>, now: real): Polled {
    if arms == [] then Polled([], false, [])
    else
      var (a, ready, calls) := PollTimeout(arms[0], now);
      if ready then Polled([a] + arms[1..], true, calls)
      else var rest := PollAny(arms[1..], now); Polled([a] + rest.arms, rest.ready, calls + rest.calls)
  }

  /** Polls every arm and keeps those still Pending. */
  function PollAll(arms: seq<Arm>, now: real): Polled {
    if arms == [] then Polled([], true, [])
    else
      var (a, ready, calls) := PollTimeout(arms[0], now);
      var rest := PollAll(arms[1..], now);
      Polled(if ready then rest.arms else [a] + rest.arms, ready && rest.ready, calls + rest.calls)
  }

  ghost predicate Unscheduled(arms: seq<Arm>) {
    forall k :: 0 <= k < |arms| ==> !arms[k].scheduled
  }

  ghost predicate Scheduled(arms: seq<Arm>) {
    forall k :: 0 <= k < |arms| ==> arms[k].scheduled
  }

  ghost function Deadlines(arms: seq<Arm>): seq<real> {
    seq(|arms|, k requires 0 <= k < |arms| => arms[k].deadline)
  }

  /** Pending means that every arm still held has been polled, and so has its wakeup queued. */
  lemma {:induction false} PendingMeansAllPolled(arms: seq<Arm>, now: real)
    ensures !PollAny(arms, now).ready ==> Scheduled(PollAny(arms, now).arms)
    ensures Scheduled(PollAll(arms, now).arms)
  {
    if arms != [] {
      PendingMeansAllPolled(arms[1..], now);
    }
  }

  /** The first poll asks for one wakeup per arm and resolves nothing, even if a deadline is now. */
  lemma {:induction false} FirstPollSchedulesAll(arms: seq<Arm>, now: real)
    requires Unscheduled(arms)
    ensures var p := PollAny(arms, now);
            Scheduled(p.arms) && Deadlines(p.arms) == Deadlines(arms) && !p.ready && p.calls == Deadlines(arms)
    ensures PollAll(arms, now) == PollAny(arms, now).(ready := arms == [])
  {
    if arms != [] {
      var rest := arms[1..];
      FirstPollSchedulesAll(rest, now);
      assert arms == [arms[0]] + rest;
      assert Deadlines(arms) == [arms[0].deadline] + Deadlines(rest);
    }
  }

  /** A later poll of `any_of` asks for no wakeup, and resolves exactly when some deadline has come. */
  lemma {:induction false} AnyResolvesWhenOneIsDue(arms: seq<Arm>, now: real)
    requires Scheduled(arms)
    ensures var p := PollAny(arms, now);
            p.calls == [] && p.arms == arms && (p.ready <==> exists k :: 0 <= k < |arms| && arms[k].deadline <= now)
  {
    if arms != [] {
      AnyResolvesWhenOneIsDue(arms[1..], now);
      assert arms == [arms[0]] + arms[1..];
    }
  }

  /** A later poll of `all_of` asks for no wakeup, drops exactly the arms whose deadline has come,
      and resolves exactly when none is left. */
  lemma {:induction false} AllDropsWhatIsDue(arms: seq<Arm>, now: real)
    requires Scheduled(arms)
    ensures var p := PollAll(arms, now);
            && p.calls == [] && Scheduled(p.arms) && (p.ready <==> p.arms == [])
            && (forall a :: a in p.arms <==> a in arms && a.deadline > now)
  {
    if arms != [] {
      AllDropsWhatIsDue(arms[1..], now);
      assert arms == [arms[0]] + arms[1..];
      var p, q := PollAll(arms, now), PollAll(arms[1..], now);
      assert p.arms == if arms[0].deadline <= now then q.arms else [arms[0]] + q.arms;
    }
  }

  /** `done` records that the future was Ready: it must then never be polled again. */
  class Timeout {
    const deadline: real
    var scheduled: bool
    ghost var done: bool

    constructor (now: real, delay: real)
      requires delay >= 0.0
      ensures deadline == now + delay && !scheduled && !done
    {
      deadline, scheduled, done := now + delay, false, false;
    }

    ghost function View(): Arm
      reads this
    {
      Arm(deadline, scheduled)
    }

    method Poll(now: real) returns (ready: bool, calls: seq<real>)
      requires !done
      modifies this
      ensures (View(), ready, calls) == PollTimeout(old(View()), now) && done == ready
    {
      if scheduled && now >= deadline {
        done := true;
        return true, [];
      }
      calls := [];
      if !scheduled {
        calls := [deadline];
        scheduled := true;
      }
      ready := false;
    }
  }

  ghost function Views(futures: seq<Timeout>): (v: seq<Arm>)
    reads futures
    ensures |v| == |futures|
  {
    seq(|futures|, k requires 0 <= k < |futures| reads futures => futures[k].View())
  }

  lemma ViewsAre(futures: seq<Timeout>, views: seq<Arm>)
    requires |views| == |futures| && forall k :: 0 <= k < |futures| ==> futures[k].View() == views[k]
    ensures Views(futures) == views
  {
  }

  ghost predicate Distinct(futures: seq<Timeout>) {
    forall i, j :: 0 <= i < j < |futures| ==> futures[i] != futures[j]
  }

  lemma OthersDiffer(futures: seq<Timeout>, k: nat)
    requires Distinct(futures) && k < |futures|
    ensures forall j :: 0 <= j < |futures| && j != k ==> futures[j] != futures[k]
  {
  }

  ghost predicate Kept(all: seq<Timeout>, kept: seq<Timeout>, at: seq<nat>, k: nat) {
    && |kept| == |at| && k <= |all|
    && (forall i :: 0 <= i < |kept| ==> at[i] < k && kept[i] == all[at[i]])
    && (forall i, j :: 0 <= i < j < |kept| ==> at[i] < at[j])
  }

  lemma KeptIsDistinct(all: seq<Timeout>, kept: seq<Timeout>, at: seq<nat>, k: nat)
    requires Distinct(all) && Kept(all, kept, at, k)
    ensures Distinct(kept) && forall fut :: fut in kept ==> fut in all[..k]
  {
    forall i, j | 0 <= i < j < |kept| ensures kept[i] != kept[j] {
      assert all[at[i]] != all[at[j]];
    }
    forall fut | fut in kept ensures fut in all[..k] {
      var i :| 0 <= i < |kept| && kept[i] == fut;
      assert all[..k][at[i]] == fut;
    }
  }

  /** Distinct futures, none of them done. */
  ghost predicate AllPending(futures: seq<Timeout>)
    reads futures
  {
    && Distinct(futures)
    && (forall k :: 0 <= k < |futures| ==> !futures[k].done)
  }

  /** After `k` arms, none of them Ready: what the whole poll yields, from what the rest yields. */
  ghost predicate AnyPart(arms: seq<Arm>, k: nat, now: real, polled: seq<Arm>, calls: seq<real>) {
    && k <= |arms|
    && var rest := PollAny(arms[k..], now);
       PollAny(arms, now) == Polled(polled + rest.arms, rest.ready, calls + rest.calls)
  }

  lemma AnyStep(arms: seq<Arm>, k: nat, now: real, polled: seq<Arm>, calls: seq<real>)
    requires k < |arms| && AnyPart(arms, k, now, polled, calls)
    ensures var (a, ready, asked) := PollTimeout(arms[k], now);
            if ready then PollAny(arms, now) == Polled((polled + [a]) + arms[k + 1..], true, calls + asked)
            else AnyPart(arms, k + 1, now, polled + [a], calls + asked)
  {
    hide PollTimeout;
    var (a, ready, asked) := PollTimeout(arms[k], now);
    var rest := PollAny(arms[k + 1..], now);
    AnyHead(arms, k, now);
    hide PollAny;
    Joined(polled, a, rest.arms);
    Joined(polled, a, arms[k + 1..]);
    assert calls + (asked + rest.calls) == (calls + asked) + rest.calls;
  }

  lemma AnyHead(arms: seq<Arm>, k: nat, now: real)
    requires k < |arms|
    ensures var (a, ready, asked) := PollTimeout(arms[k], now); var rest := PollAny(arms[k + 1..], now);
            PollAny(arms[k..], now) ==
            if ready then Polled([a] + arms[k + 1..], true, asked)
            else Polled([a] + rest.arms, rest.ready, asked + rest.calls)
  {
    hide PollTimeout;
    assert arms[k..][1..] == arms[k + 1..];
  }

  lemma Joined(front: seq<Arm>, a: Arm, back: seq<Arm>)
    ensures front + ([a] + back) == (front + [a]) + back
  {
  }

  lemma AnyStart(arms: seq<Arm>, now: real)
    ensures AnyPart(arms, 0, now, [], [])
  {
    var rest := PollAny(arms, now);
    assert arms[0..] == arms;
    assert [] + rest.arms == rest.arms && [] + rest.calls == rest.calls;
  }

  lemma AnyEnd(arms: seq<Arm>, now: real, polled: seq<Arm>, calls: seq<real>)
    requires AnyPart(arms, |arms|, now, polled, calls)
    ensures PollAny(arms, now) == Polled(polled, false, calls)
  {
    var none: seq<Arm>, nothing: seq<real> := [], [];
    assert arms[|arms|..] == [] && polled + none == polled && calls + nothing == calls;
  }

  ghost predicate AllPart(arms: seq<Arm>, k: nat, now: real, kept: seq<Arm>, calls: seq<real>) {
    && k <= |arms|
    && var rest := PollAll(arms[k..], now);
       PollAll(arms, now) == Polled(kept + rest.arms, kept == [] && rest.ready, calls + rest.calls)
  }

  lemma AllStart(arms: seq<Arm>, now: real)
    ensures AllPart(arms, 0, now, [], [])
  {
    var rest := PollAll(arms, now);
    assert arms[0..] == arms;
    assert [] + rest.arms == rest.arms && [] + rest.calls == rest.calls;
  }

  lemma AllEnd(arms: seq<Arm>, now: real, kept: seq<Arm>, calls: seq<real>)
    requires AllPart(arms, |arms|, now, kept, calls)
    ensures PollAll(arms, now) == Polled(kept, kept == [], calls)
  {
    var none: seq<Arm>, nothing: seq<real> := [], [];
    assert arms[|arms|..] == [] && kept + none == kept && calls + nothing == calls;
  }

  lemma AllStep(arms: seq<Arm>, k: nat, now: real, kept: seq<Arm>, calls: seq<real>)
    requires k < |arms| && AllPart(arms, k, now, kept, calls)
    ensures var (a, ready, asked) := PollTimeout(arms[k], now);
            AllPart(arms, k + 1, now, if ready then kept else kept + [a], calls + asked)
  {
    var (a, ready, asked) := PollTimeout(arms[k], now);
    assert arms[k..][1..] == arms[k + 1..];
    var rest := PollAll(arms[k + 1..], now);
    assert kept + ([a] + rest.arms) == (kept + [a]) + rest.arms;
    assert calls + (asked + rest.calls) == (calls + asked) + rest.calls;
  }

  lemma Replaced(front: seq<Arm>, all: seq<Arm>, a: Arm)
    requires |front| < |all|
    ensures (front + all[|front|..])[|front| := a] == (front + [a]) + all[|front| + 1..]
    ensures (front + all[|front|..])[|front|] == all[|front|]
  {
  }

  method PollArm(futures: seq<Timeout>, k: nat, now: real) returns (due: bool, asked: seq<real>)
    requires AllPending(futures) && k < |futures|
    modifies futures[k]
    ensures !due ==> AllPending(futures)
    ensures var views := old(Views(futures)); var (a, ready, calls) := PollTimeout(views[k], now);
            Views(futures) == views[k := a] && due == ready && asked == calls
  {
    hide PollTimeout;
    OthersDiffer(futures, k);
    due, asked := futures[k].Poll(now);
  }

  class AnyOf {
    const futures: seq<Timeout>
    ghost var resolved: bool

    ghost predicate Valid()
      reads this, futures
    {
      |futures| > 0 && (!resolved ==> AllPending(futures))
    }

    /** Panics on an empty list. */
    constructor (futures: seq<Timeout>)
      requires |futures| > 0 && AllPending(futures)
      ensures this.futures == futures && Valid() && !resolved
    {
      this.futures := futures;
      resolved := false;
    }

    method Poll(now: real) returns (ready: bool, calls: seq<real>)
      requires Valid() && !resolved
      modifies this, futures
      ensures Valid() && resolved == ready
      ensures Polled(Views(futures), ready, calls) == PollAny(old(Views(futures)), now)
    {
      hide PollAny, PollTimeout, AnyPart, Views, AllPending;
      ghost var v0 := Views(futures);
      ghost var polled: seq<Arm> := [];
      AnyStart(v0, now);
      var k := 0;
      ready, calls := false, [];
      while k < |futures|
        invariant 0 <= k <= |futures| && |polled| == k && AllPending(futures)
        invariant |v0| == |futures| && Views(futures) == polled + v0[k..]
        invariant AnyPart(v0, k, now, polled, calls)
        invariant !ready && !resolved
      {
        AnyStep(v0, k, now, polled, calls);
        Replaced(polled, v0, PollTimeout(v0[k], now).0);
        var due, asked := PollArm(futures, k, now);
        calls := calls + asked;
        polled := polled + [PollTimeout(v0[k], now).0];
        k := k + 1;
        if due {
          resolved := true;
          return true, calls;
        }
      }
      assert polled + v0[k..] == polled;
      AnyEnd(v0, now, polled, calls);
    }
  }

  class AllOf {
    var futures: seq<Timeout>

    ghost predicate Valid()
      reads this, futures
    {
      AllPending(futures)
    }

    constructor (futures: seq<Timeout>)
      requires AllPending(futures)
      ensures this.futures == futures && Valid()
    {
      this.futures := futures;
    }

    /** Shrinks the list in place to the futures still Pending; a future that was Ready is not in
        the list any more, so it is never polled again. */
    method Poll(now: real) returns (ready: bool, calls: seq<real>)
      requires Valid()
      modifies this, futures
      ensures Valid() && forall fut :: fut in futures ==> fut in old(futures)
      ensures Polled(Views(futures), ready, calls) == PollAll(old(Views(futures)), now)
      ensures forall fut :: fut in old(futures) ==> (fut in futures <==> !fut.done)
    {
      hide PollAll, PollTimeout, AllPart;
      var all := futures;
      ghost var v0 := Views(all);
      AllStart(v0, now);
      ghost var views: seq<Arm>, at: seq<nat> := [], [];
      var kept: seq<Timeout> := [];
      var k := 0;
      calls := [];
      while k < |all|
        invariant 0 <= k <= |all| && futures == all && |kept| == |views|
        invariant Kept(all, kept, at, k)
        invariant forall i :: 0 <= i < |kept| ==> kept[i].View() == views[i] && !kept[i].done
        invariant forall j :: k <= j < |all| ==> all[j].View() == v0[j] && !all[j].done
        invariant forall j :: 0 <= j < k && !all[j].done ==> all[j] in kept
        invariant AllPart(v0, k, now, views, calls)
      {
        AllStep(v0, k, now, views, calls);
        KeptIsDistinct(all, kept, at, k);
        var fut := all[k];
        assert fut !in all[..k];
        var due, asked := fut.Poll(now);
        calls := calls + asked;
        if !due {
          kept, views, at := kept + [fut], views + [fut.View()], at + [k];
        }
        k := k + 1;
      }
      KeptIsDistinct(all, kept, at, k);
      futures := kept;
      ready := futures == [];
      ViewsAre(futures, views);
      AllEnd(v0, now, views, calls);
    }
  }
}
