/** A run of the machine that ends with the first poll of the handle of a process that has finished
    long before. */
module SystemRuns {
  import opened Options
  import opened Systems
  import opened SystemLaws
  import Pools
  import Containers
  import Preemption

  ghost predicate Reaches(s0: Sys, s: Sys) {
    exists acts :: ValidRun(s0, acts) && Run(s0, acts) == s
  }

  lemma ReachesItself(s: Sys)
    ensures Reaches(s, s)
  {
    assert ValidRun(s, []) && Run(s, []) == s;
  }

  lemma {:induction false} RunAppend(s: Sys, acts: seq<Action>, a: Action)
    requires ValidRun(s, acts) && Enabled(Run(s, acts), a)
    ensures ValidRun(s, acts + [a]) && Run(s, acts + [a]) == Step(Run(s, acts), a)
    decreases |acts|
  {
    hide Enabled, Step;
    if acts == [] {
      assert acts + [a] == [a] && [a][1..] == [];
      assert ValidRun(Step(s, a), []) && Run(Step(s, a), []) == Step(s, a);
    } else {
      assert (acts + [a])[1..] == acts[1..] + [a];
      RunAppend(Step(s, acts[0]), acts[1..], a);
    }
  }

  lemma ReachesNext(s0: Sys, s: Sys, a: Action)
    requires Reaches(s0, s) && Enabled(s, a)
    ensures Reaches(s0, Step(s, a))
  {
    hide Enabled, Step, ValidRun, Run;
    var acts :| ValidRun(s0, acts) && Run(s0, acts) == s;
    RunAppend(s0, acts, a);
  }

  // ----- The run -----

  /** Two processes: 0 waits for a time unit, 1 for five. */
  function Both(s: Sys, first: Proc, second: Proc): Sys {
    s.(procs := [first, second])
  }

  const IDLE := Proc(false, false, None, Timer(0))
  const FRESH := Proc(true, false, None, Timer(0))
  const WAITS := Proc(true, false, None, Timer(1))
  const DONE := Proc(true, true, None, Timer(0))

  /** Nobody owns a leaf of a resource that has no requests. */
  lemma NoRequests(s0: Sys, s: Sys, leaf: Leaf)
    requires Start(s0) && s.pools == s0.pools && s.tanks == s0.tanks && s.shops == s0.shops
    requires OfResource(leaf)
    ensures !Live(s, leaf)
  {
  }

  function Spawned(s0: Sys): Sys {
    Both(s0, IDLE, IDLE).(ready := [0, 1])
  }

  lemma ReachSpawned(s0: Sys)
    requires Start(s0)
    ensures Reaches(s0, Spawned(s0))
  {
    hide Reaches;
    ReachesItself(s0);
    var s1 := Step(s0, Spawn);
    ReachesNext(s0, s0, Spawn);
    var s2 := Step(s1, Spawn);
    ReachesNext(s0, s1, Spawn);
    ReachesNext(s0, s2, Drain);
    assert s2.procs == [IDLE, IDLE] && s2.pending == [0, 1];
    assert Step(s2, Drain) == Spawned(s0);
  }

  function FirstWaits(s0: Sys): Sys {
    Both(s0, FRESH, IDLE).(ready := [1], queue := [Due(s0.now + 1.0, 0)],
                           timers := [TimerRec(0, s0.now + 1.0, true, false)], polled := {Timer(0)})
  }

  lemma ReachFirstArms(s0: Sys)
    requires Start(s0)
    ensures Reaches(s0, FirstWaits(s0).(current := Some(0)))
  {
    hide Reaches;
    ReachSpawned(s0);
    var s1 := Step(Spawned(s0), Take);
    ReachesNext(s0, Spawned(s0), Take);
    assert s1 == Both(s0, FRESH, IDLE).(ready := [1], current := Some(0));
    var s2 := Step(s1, NewTimer(s0.now + 1.0));
    ReachesNext(s0, s1, NewTimer(s0.now + 1.0));
    ReachesNext(s0, s2, Poll(Timer(0)));
    assert Step(s2, Poll(Timer(0))) == FirstWaits(s0).(current := Some(0));
  }

  lemma ReachFirstWaits(s0: Sys)
    requires Start(s0)
    ensures Reaches(s0, FirstWaits(s0))
  {
    hide Reaches;
    ReachFirstArms(s0);
    var s3 := FirstWaits(s0).(current := Some(0));
    forall leaf | Mine(s3, leaf) ensures leaf in s3.polled {
      if OfResource(leaf) { NoRequests(s0, s3, leaf); }
    }
    ReachesNext(s0, s3, Suspend(Timer(0)));
    assert Step(s3, Suspend(Timer(0))) == FirstWaits(s0);
  }

  function SecondWaits(s0: Sys): Sys {
    Both(s0, FRESH, WAITS).(queue := [Due(s0.now + 1.0, 0), Due(s0.now + 5.0, 1)],
                            timers := [TimerRec(0, s0.now + 1.0, true, false),
                                       TimerRec(1, s0.now + 5.0, true, false)],
                            polled := {Timer(1)})
  }

  lemma ReachSecondPolls(s0: Sys)
    requires Start(s0)
    ensures Reaches(s0, SecondWaits(s0).(procs := [FRESH, FRESH], current := Some(1)))
  {
    hide Reaches;
    ReachFirstWaits(s0);
    var s1 := Step(FirstWaits(s0), Take);
    ReachesNext(s0, FirstWaits(s0), Take);
    assert s1 == FirstWaits(s0).(procs := [FRESH, FRESH], ready := [], current := Some(1), polled := {});
    var s2 := Step(s1, NewTimer(s0.now + 5.0));
    ReachesNext(s0, s1, NewTimer(s0.now + 5.0));
    ReachesNext(s0, s2, Poll(Timer(1)));
    assert Step(s2, Poll(Timer(1))) == SecondWaits(s0).(procs := [FRESH, FRESH], current := Some(1));
  }

  lemma ReachSecondWaits(s0: Sys)
    requires Start(s0)
    ensures Reaches(s0, SecondWaits(s0))
  {
    hide Reaches;
    ReachSecondPolls(s0);
    var s3 := SecondWaits(s0).(procs := [FRESH, FRESH], current := Some(1));
    forall leaf | Mine(s3, leaf) ensures leaf in s3.polled {
      if OfResource(leaf) { NoRequests(s0, s3, leaf); }
    }
    ReachesNext(s0, s3, Suspend(Timer(1)));
    assert Step(s3, Suspend(Timer(1))) == SecondWaits(s0);
  }

  function FirstDone(s0: Sys): Sys {
    Both(s0, DONE, WAITS).(now := s0.now + 1.0, queue := [Due(s0.now + 5.0, 1)],
                           timers := [TimerRec(0, s0.now + 1.0, true, true),
                                      TimerRec(1, s0.now + 5.0, true, false)])
  }

  lemma ReachFirstPolls(s0: Sys)
    requires Start(s0)
    ensures Reaches(s0, FirstDone(s0).(procs := [FRESH, WAITS], current := Some(0)))
  {
    hide Reaches;
    ReachSecondWaits(s0);
    var s1 := Step(SecondWaits(s0), Pop(0));
    ReachesNext(s0, SecondWaits(s0), Pop(0));
    assert s1 == SecondWaits(s0).(now := s0.now + 1.0, queue := [Due(s0.now + 5.0, 1)], ready := [0]);
    var s2 := Step(s1, Take);
    ReachesNext(s0, s1, Take);
    assert s2 == s1.(ready := [], current := Some(0), polled := {});
    ReachesNext(s0, s2, Poll(Timer(0)));
    assert Step(s2, Poll(Timer(0))) == FirstDone(s0).(procs := [FRESH, WAITS], current := Some(0));
  }

  lemma ReachFirstDone(s0: Sys)
    requires Start(s0)
    ensures Reaches(s0, FirstDone(s0))
  {
    hide Reaches;
    ReachFirstPolls(s0);
    var s3 := FirstDone(s0).(procs := [FRESH, WAITS], current := Some(0));
    forall leaf ensures !Mine(s3, leaf) {
      if OfResource(leaf) { NoRequests(s0, s3, leaf); }
    }
    ReachesNext(s0, s3, Finish);
    assert Step(s3, Finish) == FirstDone(s0);
  }

  function SecondJoins(s0: Sys): Sys {
    Both(s0, DONE, WAITS).(now := s0.now + 5.0,
                           timers := [TimerRec(0, s0.now + 1.0, true, true), TimerRec(1, s0.now + 5.0, true, true)],
                           children := [ChildRec(1, 0, false, false)], current := Some(1))
  }

  lemma ReachSecondJoins(s0: Sys)
    requires Start(s0)
    ensures Reaches(s0, SecondJoins(s0))
  {
    hide Reaches;
    ReachFirstDone(s0);
    var s1 := Step(FirstDone(s0), Pop(0));
    ReachesNext(s0, FirstDone(s0), Pop(0));
    assert s1 == FirstDone(s0).(now := s0.now + 5.0, queue := [], ready := [1]);
    var s2 := Step(s1, Take);
    ReachesNext(s0, s1, Take);
    assert s2 == s1.(ready := [], current := Some(1), polled := {});
    var s3 := Step(s2, Poll(Timer(1)));
    ReachesNext(s0, s2, Poll(Timer(1)));
    ReachesNext(s0, s3, Join(0));
    assert Step(s3, Join(0)) == SecondJoins(s0);
  }

  /** A process spawned with no parent finishes after one time unit. Another polls its handle for
      the first time after five: nothing was ever registered, and that poll is Ready. */
  lemma LateJoin(s0: Sys)
    requires Start(s0)
    ensures exists s ::
              && Reaches(s0, s) && s.now == s0.now + 5.0 && Enabled(s, Poll(Child(0)))
              && Complete(s, Child(0)) && !Armed(s, Child(0)) && s.procs[0].waker == None
              && !Live(Step(s, Poll(Child(0))), Child(0))
  {
    hide Reaches;
    ReachSecondJoins(s0);
    assert Enabled(SecondJoins(s0), Poll(Child(0)));
  }
}
