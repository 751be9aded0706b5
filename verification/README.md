# SimCore kernel: a verified model

SimCore is a discrete-event simulation kernel: an executor that polls processes written as async
code, the futures those processes wait for, and resources shared between them. This project models
the kernel in Dafny and proves what its documentation promises, or, where the code falls short of a
promise, exactly when it keeps it.

Every resource and the executor appear twice. Objects (`WaitQueue`, `Resource`,
`PreemptiveResource`, `Container`, `SimEnv`, `AnyOf`, `AllOf`, `Refiller`, `Feed`, `TimeAvg`, ...) are
updated in place by the same branches and loops as the source, and each method is proved to do one
step of a state machine on values (`Pools`, `Preemption`, `Containers`, `Executors`, ...); `Event`,
`ProcessSlot` and `Timeout` are proved to compute the functions by which `Systems` polls and fires. The
laws are proved about the machines, over every interleaving of polls, spurious re-polls, drops,
evictions and releases. `Systems` puts all of them under one executor, in steps as small as one poll
of one future; each of its whole polls is proved to be one step of `Executors`, which `SimEnv` runs.

| file | what it holds |
|---|---|
| `WaitQueue.dfy`, `Pool.dfy`, `Resource.dfy` | the ordered wait queue; `Resource` and `PriorityResource` as one pool keyed by priority (key 0 for `Resource`); its refinement of a queue from which abandoned requests vanish at once |
| `Preemptive.dfy`, `PreemptiveLaws.dfy`, `PreemptiveResource.dfy` | eviction and handoff; exact accounting; when a grant can lose its owner |
| `Container.dfy`, `ContainerLaws.dfy`, `ContainerResource.dfy` | the reservoir, its cascade, conservation, first-in first-out service, quiescence and freezing |
| `Event.dfy`, `Process.dfy` | the one-shot event and the result slot of a process handle |
| `System.dfy`, `SystemLaws.dfy`, `SystemRuns.dfy` | executor, leaf futures and resources as one machine; no wake is lost; a run in which a handle is awaited late |
| `SystemExecution.dfy` | every run of that machine is a run of the executor |
| `Executor.dfy`, `ExecutorLaws.dfy`, `SimEnv.dfy` | event queue, ready queue and process table; splitting of runs, dispatch order, process ids; the batched loops |
| `Combinators.dfy`, `CombinatorLaws.dfy` | `Timeout`, `AnyOf`, `AllOf`, and when they resolve under the executor |
| `TokenBucket.dfy`, `RefillLaws.dfy`, `Provider.dfy` | the rate limiter over `Container`: its bound, and that its refill is on time |
| `Trampoline.dfy` | the Python binding's generator stack against recursive evaluation |
| `Bits.dfy`, `SplitMix.dfy`, `KnownAnswers.dfy` | SplitMix64 on words and on masked integers, and its published outputs |
| `TimeAvg.dfy`, `Queueing.dfy`, `QueueingLaws.dfy` | time averages, Little's identity on a sample path; customers queueing for the servers of a pool, their utilisation, and that the records they leave are their stays |

Where the code and its comments disagree, the model follows the code:

- `src/resource/wait_queue.rs:121` says `try_acquire` is only called on the first attempt; `poll` calls it
  on every re-poll of a parked request. What makes that harmless is proved: a non-empty heap means a
  full pool (`Pools.RunKeepsInv`, `Pools.FreshNeverOvertakes`).
- `src/resource/preemptive.rs:56` says `holders.len()` mirrors `in_use` exactly. Grants not yet picked up
  are counted by `in_use` only (`PreemptionLaws.ExactAccounting`), and after a parked request preempts on
  a re-poll a unit can be granted to its own stale heap entry and never come back
  (`PreemptionLaws.LostUnit`; `PreemptionLaws.DrainLaw` says exactly when).
- `src/resource/container.rs:377-379` speaks of a put-waiter blocked behind a woken get on the immediate
  put path; the design notes say that path serves one queue only, which is what is proved
  (`ContainerLaws.ImmediateServesOpposite`).
- `src/executor/mod.rs:68-70` relies on callers never scheduling in the past. A timeout fixes its deadline
  when created but is queued when first polled, so a program can break this; without debug assertions
  the clock then goes back (`CombinatorLaws.LatePollRewindsTheClock`); a run stays in order exactly when
  no poll of it does that (`ExecutorLaws.OrderLaw`).

Simulated time, levels and amounts are reals; integers are unbounded except in SplitMix64, where the
64-bit wrap-around is explicit.

## Model

| member | source | states |
|---|---|---|
| WaitQueues.InsertPosition | src/resource/wait_queue.rs:52-56 | an entry is placed behind every entry with a smaller or equal key and before every greater one |
| WaitQueues.LiveCancel | src/resource/wait_queue.rs:114-116 | marking one request abandoned takes exactly its entry out of the live queue |
| WaitQueues.SkipDeadServesLiveHead | src/resource/wait_queue.rs:172-182 | popping through dead entries yields the head of the live queue and leaves the rest of it |
| WaitQueues.WaitQueue.Acquire | src/resource/wait_queue.rs:130-137 | takes a free unit if there is one, and says so |
| WaitQueues.WaitQueue.Park | src/resource/wait_queue.rs:141-157 | enters the waiter in (key, ticket) order with a new ticket |
| WaitQueues.WaitQueue.ReleaseUnit | src/resource/wait_queue.rs:172-182 | the pop loop: the first live waiter alone is granted and woken, in_use unchanged, or the unit is freed; no decrement below zero |
| Pools.StepSimulates | src/resource/mod.rs:153-226 | every poll, re-poll and drop keeps the pool invariant and does what the eager queue does, with the same answer and the same process woken |
| Pools.RunKeepsInv | src/resource/mod.rs:153-226 | the invariant holds over any run; in particular waiters exist only when the pool is full |
| Pools.PoolConservation | src/resource/mod.rs:153-226 | over any interleaving, in_use is live guards plus grants not yet picked up, between 0 and capacity |
| Pools.PoolIsIdeal | src/resource/priority.rs:178-249 | any run shows the same answers and wakes as a sorted queue from which abandoned requests vanish at once |
| Pools.ReleaseServesLeast | src/resource/wait_queue.rs:159-182 | a release grants the live waiter with the smallest key, the earliest of those, or frees the unit when none is live |
| Pools.FreshNeverOvertakes | src/resource/wait_queue.rs:118-129 | a request polled for the first time gets a unit only when nobody is parked |
| Resources.ResourceRequest.Poll | src/resource/mod.rs:153-187 | one poll, with granted checked before capacity and a single registration |
| Resources.Resource.Poll | src/resource/priority.rs:178-211 | polling changes the pool as the machine's Poll step does |
| Resources.Resource.DropRequest | src/resource/mod.rs:190-204 | dropping passes an unused grant on, cancels a parked entry, or does nothing; the next owner is woken |
| Resources.Resource.DropGuard | src/resource/mod.rs:220-226 | dropping a guard hands its unit over or frees it |
| Preemption.VictimIsLatestWorst | src/resource/preemptive.rs:65-82 | the victim has the worst priority of all holders, strictly worse than the request, and is the latest such; there is none exactly when the request outranks nobody |
| Preemption.PollTakesUnit | src/resource/preemptive.rs:259-298 | a poll that finds a grant or a free unit adds one holder, with the request's own priority and a new id, behind the others; no other entry, guard or request changes |
| Preemption.PollEvictsWorst | src/resource/preemptive.rs:276-313 | in a full pool a request that outranks somebody evicts the latest of the worst-priority holders: exactly that entry goes, exactly its guard is marked, and the request becomes a holder at its own priority with in_use unchanged |
| Preemption.PollParksOnce | src/resource/preemptive.rs:282-318 | in a full pool a request that outranks nobody is parked at its priority behind its equals, and a re-poll of it changes nothing |
| Preemption.ReleaseServesBest | src/resource/wait_queue.rs:159-182 | a released unit goes to the live entry with the best priority, the earliest of those, and is freed exactly when none is live |
| Preemption.StepKeepsInv | src/resource/preemptive.rs:259-391 | every action keeps the accounting and the match of holder entries with live guards |
| PreemptionLaws.ExactAccounting | src/resource/preemptive.rs:54-62 | over any run in_use is the holders plus the grants neither turned into a holder nor passed on, within capacity, and the holder list is exactly the guards neither preempted nor dropped |
| PreemptionLaws.StepOwned | src/resource/preemptive.rs:276-320 | a step keeps every grant and live heap entry owned by a live request if and only if it is not a parked request preempting on a re-poll |
| PreemptionLaws.OwnershipLaw | src/resource/preemptive.rs:259-337 | over any run, every outstanding grant and every live heap entry has a live request throughout if and only if no parked request ever preempts on a re-poll |
| PreemptionLaws.StepOwnsGrants | src/resource/preemptive.rs:323-391 | a step hands a unit to a request that is gone if and only if it releases one while the first live heap entry is that of a request that already took a unit by preempting |
| PreemptionLaws.GrantLaw | src/resource/preemptive.rs:259-391 | after any run, every outstanding grant has a live owner if and only if no step of the run did that; no parked request preempting on a re-poll is enough for it |
| PreemptionLaws.HarmlessRepreemption | src/resource/preemptive.rs:276-294 | but not needed: a run in which a parked request preempts and every grant has its owner |
| PreemptionLaws.StepRanked | src/resource/preemptive.rs:75-82 | a step keeps parked waiters from outranking holders and grants if and only if it does not park a request over a strictly worse unconsumed grant |
| PreemptionLaws.RankLaw | src/resource/preemptive.rs:276-294 | over any run, the rank order holds throughout if and only if no request parks over a worse unconsumed grant; then no parked request finds a victim |
| PreemptionLaws.DrainedPool | src/resource/preemptive.rs:323-391 | once every request and guard is dropped, in_use is the number of grants made to requests that were gone |
| PreemptionLaws.DrainLaw | src/resource/preemptive.rs:259-391 | a run after which everything has been dropped gives all units back if and only if it released none to a request that was gone |
| PreemptionLaws.StrayGrantIsForever | src/resource/preemptive.rs:323-327 | a grant to a request that already holds another unit is never given back |
| PreemptionLaws.LostUnit | src/resource/preemptive.rs:276-337 | a run of one-unit requests after which every request and guard is gone and the unit is still in use |
| PreemptiveResources.PreemptiveResource.Decide | src/resource/preemptive.rs:276-293 | the outcome of a poll: free unit, victim, or parked once |
| PreemptiveResources.PreemptiveResource.EvictHolder | src/resource/preemptive.rs:300-311 | removes the victim's entry, marks its guard and wakes its signal's waiters |
| PreemptiveResources.PreemptiveResource.Poll | src/resource/preemptive.rs:259-320 | one poll is the machine's step, whose three cases are `Preemption.PollTakesUnit`, `PollEvictsWorst` and `PollParksOnce`, and yields a guard exactly when it is Ready |
| PreemptiveResources.PreemptiveResource.DropRequest | src/resource/preemptive.rs:323-337 | dropping is the machine's step, and wakes the next owner |
| PreemptiveResources.PreemptiveResource.DropGuard | src/resource/preemptive.rs:379-391 | a preempted guard changes nothing; any other loses its entry and releases its unit to the next owner, who is woken |
| Containers.ServeShrinks | src/resource/container.rs:118-135 | a pass that serves somebody shortens its queue, so the cascade ends from any state |
| ContainerLaws.StepKeepsInv | src/resource/container.rs:359-474 | every action keeps the flags, both queues in order of arrival with every live waiter in them, and conservation |
| ContainerLaws.LevelIsConserved | src/resource/container.rs:74-116 | over any run the level stays between 0 and capacity and equals the initial level plus committed puts minus committed gets, dropped ones included and canceled ones not |
| ContainerLaws.ServiceIsFifo | src/resource/container.rs:43-63 | whoever commits, everyone of the same kind first polled earlier has committed before or is canceled, across the immediate path and the cascade |
| ContainerLaws.CascadeIsOneSided | src/resource/container.rs:118-135 | with nobody live on one side the cascade serves only the other, in at most two rounds |
| ContainerLaws.ServeLongestPrefix | src/resource/container.rs:74-116 | a pass commits exactly the longest prefix of the live waiters that fits, in order, and moves the level by their total |
| ContainerLaws.ImmediateServesOpposite | src/resource/container.rs:369-382 | on the immediate paths the cascade serves only the opposite queue: the longest prefix of it that fits |
| ContainerLaws.CascadeIsQuiescent | src/resource/container.rs:127-135 | whatever was canceled before, no live head can be served after a cascade |
| ContainerLaws.StepQuiescent | src/resource/container.rs:367-392 | every action but the drop of a parked request keeps that |
| ContainerLaws.DropQuiescent | src/resource/container.rs:397-405 | dropping a parked request loses it if and only if it was the first live one of its queue and the next live one fits |
| ContainerLaws.DropStrandsAWaiter | src/resource/container.rs:468-474 | a run in which a drop leaves a serviceable get parked |
| ContainerLaws.QuiescenceLaw | src/resource/container.rs:359-474 | no live waiter is left serviceable throughout a run if and only if no drop of the run takes away the first live waiter of a queue whose next one fits |
| ContainerLaws.RunFrozen | src/resource/container.rs:367-463 | while both queues hold a live waiter, level and commits stand still |
| ContainerResources.Container.WakeGetWaiters | src/resource/container.rs:74-92 | the loop serves the get queue as specified, marks done before waking, and reports any service |
| ContainerResources.Container.WakePutWaiters | src/resource/container.rs:98-116 | the same for the put queue |
| ContainerResources.Container.TriggerCascade | src/resource/container.rs:127-135 | the loop is the specified cascade |
| ContainerResources.Container.HasLiveWaiter | src/resource/container.rs:54-63 | true exactly when a waiter that is not canceled is queued |
| ContainerResources.Container.Poll | src/resource/container.rs:362-466 | one poll is the machine's step; whoever it commits is woken |
| ContainerResources.Container.DropRequest | src/resource/container.rs:397-474 | a drop marks a parked request canceled and serves nobody |
| Events.EachIsWokenOnce | src/event.rs:112-124 | a poll before the event fires leaves the process registered once, behind those who were, however often it is polled; firing wakes it exactly once and the others as before |
| SystemLaws.FiringWakesOnce | src/event.rs:100-124 | in every reachable state, firing an event wakes no process twice |
| Events.Event.Fire | src/event.rs:100-106 | latches, and wakes every registered process once, in order |
| Events.Event.Poll | src/event.rs:112-124 | Ready exactly when fired; otherwise the process is registered, without duplicates |
| Processes.LatestPollerIsWoken | src/process.rs:68-80 | whoever polled the handle last, and nobody else, is woken when the result comes |
| Processes.ProcessSlot.Finish | src/process.rs:113-120 | stores the result and wakes the awaiter, if any |
| Processes.ProcessSlot.Poll | src/process.rs:68-80 | takes the result once; before that keeps one waker, the latest poller's |
| SystemLaws.StepKeepsInv | src/env.rs:188-304 | every poll, drop, fire, spawn, first await of a handle, admission, event pop, clock move to a boundary and resource action keeps: a complete leaf's owner is about to poll it, an incomplete one is registered where it will be woken |
| SystemLaws.NoWakeIsLost | src/timeout.rs:36-49 | in every reachable state, a leaf of a process not running that is granted, done, fired or has a result has its process in the ready queue; a scheduled timer has its event queued or its process ready at the deadline |
| SystemLaws.RunEndsAtRest | src/env.rs:188-204 | when run returns, no timer is pending, no live leaf is complete, every unfinished process is suspended on such a leaf, and a resource somebody waits for has all its units under live guards (a preemptive one: under holders or stray grants) |
| SystemLaws.RestingShop | src/resource/preemptive.rs:323-391 | at that point the only outstanding grants of a contended preemptive pool are those lost to requests that preempted while parked |
| SystemLaws.CompleteIsReady | src/resource/mod.rs:153-161 | the poll that follows a wake is Ready |
| SystemLaws.TimerIsExact | src/timeout.rs:36-49 | a timer is Ready exactly at its deadline, however often it is polled before |
| SystemRuns.LateJoin | src/process.rs:68-73 | a run in which a process with no parent finishes and another polls its handle for the first time much later: nothing was registered, and that poll is Ready |
| SystemExecution.PopDueMatches | src/executor/queue.rs:33-44 | the earliest entry, first inserted among equals, is the one the (time, ticket) queue pops |
| SystemExecution.PollTurnIsPollHead | src/env.rs:277-304 | a whole poll of a process, whatever it does, is one step of the executor with a body that asks for the same wakeups, wakes and spawns |
| SystemExecution.EveryRunIsExecuted | src/env.rs:188-304 | every run is made of such polls, events and outside calls, and the executor making them reaches the same clock, queues and process table; there the owner of a complete leaf is in the ready queue, a pending timer has its event queued, and once the run loop halts no leaf is complete |
| ExecutorLaws.RunUntilSplits | src/env.rs:206-242 | for t1 <= t2, run_until(t1) then run_until(t2) ends in exactly the states in which run_until(t2) ends: clock, table, queues, world, dispatch log, poll log |
| ExecutorLaws.EarlierReturns | src/env.rs:214-242 | if run_until(t2) returns, so does run_until of any earlier boundary |
| ExecutorLaws.OneOutcome | src/env.rs:188-242 | a run has one outcome |
| ExecutorLaws.ScheduleLaw | src/executor/mod.rs:67-78 | a wakeup keeps queue, log and clock in order, and the next dispatch does not move the clock back, if and only if its time is not past |
| ExecutorLaws.OrderLaw | src/executor/queue.rs:33-44 | over any run, clock, event queue and dispatch log stay in (time, ticket) order throughout if and only if no poll of the run schedules in the past; and then the clock never goes back |
| ExecutorLaws.DispatchOrder | src/env.rs:214-242 | for such a run that returns, the dispatch log is strictly increasing, nothing at or after the boundary runs, and the clock ends at the boundary, or where it was if that is later |
| ExecutorLaws.StepsKeepIds | src/executor/mod.rs:80-84 | ids are dense and index admitted slots, a vacated slot is never filled again, and wakes are served in the order they came |
| ExecutorLaws.WakesAreServed | src/env.rs:270-304 | whenever the clock moves, an event is dispatched or the run halts, every wake so far has been followed by a poll of that id |
| SimEnvs.SimEnv.PollEntry | src/env.rs:287-301 | taking a process from its slot, polling it and putting it back is one step of the first-in first-out machine, with every index in range |
| SimEnvs.SimEnv.DrainPendingSpawns | src/env.rs:245-268 | pending spawns fill their slots and become ready, in order |
| SimEnvs.SimEnv.PollReady | src/env.rs:277-304 | polling whole batches is polling one first-in first-out queue of ids |
| SimEnvs.SimEnv.Run | src/env.rs:188-204 | the loop returns what the machine's run returns |
| SimEnvs.SimEnv.RunUntil | src/env.rs:214-242 | the same up to a boundary, the clock moved to it and never back |
| SimEnvs.EnoughFuel | src/env.rs:188-242 | the loops' step bound excludes no run that returns |
| Combinators.Timeout.Poll | src/timeout.rs:36-49 | schedules once, on the first poll, and is Ready only if scheduled and due |
| Combinators.FirstPollSchedulesAll | src/timeout.rs:44-49 | the first poll of either combinator queues one wakeup per arm and resolves nothing, even for a deadline that is now |
| Combinators.AnyResolvesWhenOneIsDue | src/combinator.rs:52-59 | a later poll of any_of resolves exactly when some deadline has come |
| Combinators.AllDropsWhatIsDue | src/combinator.rs:99-112 | a later poll of all_of drops exactly the arms that are due, and resolves exactly when none is left |
| Combinators.PendingMeansAllPolled | src/combinator.rs:52-112 | a combinator that returns Pending has polled every arm it still holds |
| Combinators.AnyOf.Poll | src/combinator.rs:52-59 | the loop polls the arms in order up to the first that is Ready |
| Combinators.AllOf.Poll | src/combinator.rs:99-112 | retains in place exactly the pending arms; a completed arm is never polled again |
| CombinatorLaws.PopulationIsDisciplined | src/env.rs:369-376 | processes that await fresh timeouts never schedule in the past |
| CombinatorLaws.CombinatorResolvesAtItsGoal | src/combinator.rs:52-112 | among arbitrary other processes and spurious wakes, any_of resolves once, at the least deadline, all_of once, at the greatest, in every run that returns, unless the boundary comes first |
| CombinatorLaws.LatePollRewindsTheClock | src/timeout.rs:44-47 | a process that polls an expired timeout for the first time makes the clock go from 2 to 1 |
| TokenBuckets.NewPutIsAwaited | src/resource/container.rs:98-116 | whatever a client does, the only put it can commit is the one the refill awaits |
| TokenBuckets.AdvanceKeepsInv | sim-llm/sim_llm/provider.py:101-111 | every move keeps: at most one uncommitted put, the refill's, and puts a time unit apart |
| TokenBuckets.PutsCommitApart | sim-llm/sim_llm/provider.py:101-111 | puts commit at least one time unit apart, even when one blocks on a full bucket |
| TokenBuckets.RateBound | sim-llm/sim_llm/provider.py:57-60 | over any window (s, t] the amount withdrawn is at most the level at s, itself at most capacity, plus amount times floor(t-s)+1 |
| RefillLaws.EachSleepIsOneUnit | sim-llm/sim_llm/provider.py:109-111 | over any run, whenever the refill sleeps it is until exactly 1.0 after the start or after the time its last put was picked up |
| RefillLaws.RefillIsOnTime | sim-llm/sim_llm/provider.py:101-111 | over any run, the deadline is the start plus one unit for each put committed and one more, plus exactly the time spent waiting for puts; and a put is asked for at the deadline, not later |
| RefillLaws.PutsByNow | sim-llm/sim_llm/provider.py:109-111 | once the refill due has been polled, the puts committed number the whole units gone by since the start, less the time waited |
| RefillLaws.PutsOnSchedule | sim-llm/sim_llm/provider.py:109-111 | so in a run in which no put had to wait they number floor(now - start) |
| RefillLaws.LevelIs | sim-llm/sim_llm/provider.py:90-111 | over any run the level is the capacity plus amount times the puts less what was withdrawn, and stays between 0 and the capacity |
| Providers.Refiller.Resume | sim-llm/sim_llm/provider.py:101-111 | one resumption of the endless loop is the machine's refill move, which the laws of `RefillLaws` are about, and is always possible |
| Trampolines.DriverMeansEval | simcore-python/src/lib.rs:157-196 | if the stack loop stops, recursive evaluation ends with the same requests, resume values, world, and return value or error; after an error at any depth (a Failed result) no further request is issued |
| Trampolines.EvalMeansDriver | simcore-python/src/lib.rs:336-345 | and conversely, for any nesting depth |
| Trampolines.Drive | simcore-python/src/lib.rs:157-347 | the loop as written comes to what recursive evaluation says, or has not stopped within its bound |
| KnownAnswers.Seed0 | src/rng.rs:177-184 | the first six outputs from seed 0 are the published ones |
| KnownAnswers.Seed42 | src/rng.rs:185-192 | and from seed 42 |
| SplitMix.MixIsBijective | src/rng.rs:79-85 | the output function is a bijection on 64-bit words, with its inverse |
| SplitMix.StateIsLinear | src/rng.rs:79-81 | after n draws the state is seed + n * 0x9E3779B97F4A7C15 modulo 2^64 |
| SplitMix.StatesRepeatEveryWord | src/rng.rs:79-81 | two draws meet the same state if and only if their numbers agree modulo 2^64 |
| SplitMix.OutputsRepeatEveryWord | src/rng.rs:79-86 | the same for outputs |
| SplitMix.EveryOutputOccurs | src/rng.rs:79-86 | every 64-bit value is drawn within the first 2^64 draws, from any seed |
| SplitMix.TwinDrawsTheSame | compare/models/_feed.py:30-42 | for any integer seed the masked-integer generator draws the same stream |
| SplitMix.UniformIsRounded | src/rng.rs:136-142 | uniform01 lies in [0, 1) and is the output scaled and rounded down to a multiple of 2^-53, which is the output divided by 2^11 in units of 2^-53 |
| SplitMix.ByteIs | src/rng.rs:98-108 | byte j is the word divided by 256^j, modulo 256 |
| SplitMix.BytesRoundTrip | src/rng.rs:98-108 | the weighted sum of a word's little-endian bytes is the word |
| SplitMix.Feed.Next | src/rng.rs:79-86 | one draw: the state moves by one, and the output is the one `KnownAnswers` gives for the published seeds |
| SplitMix.Feed.NextU32 | src/rng.rs:93-96 | the high half of the next output |
| SplitMix.Feed.FillBytes | src/rng.rs:98-108 | byte i is byte i mod 8 of output i div 8, the last draw in part; each whole chunk of eight bytes, put together again, is one output; and the number of draws is exact |
| SplitMix.TwinFeed.NextU64 | compare/models/_feed.py:37-42 | one draw of the twin: the state and the output are those of the wrapping generator |
| TimeAverages.RecordIs | examples/queueing/common/mod.rs:80-94 | for changes in time order the area up to any time is the sum of each jump times the time it has been in force since start |
| TimeAverages.LittleIdentity | examples/queueing/common/mod.rs:91-94 | for arrivals and departures in any time order, mean times window length is the sum over jobs of their overlap with the window |
| TimeAverages.MeanQueueIsMeanNumber | examples/compare.rs:187-200 | the reported mean queue length is the time average of the number in the system |
| TimeAverages.UtilizationIsHeldTime | examples/compare.rs:187-198 | the length of the run is the last departure, or zero when there is none, and the reported utilisation times servers times that length is the total time servers were held |
| TimeAverages.BusyTimeIsBounded | examples/compare.rs:196-200 | if never more than servers guards overlap, total service is at most servers times the length of the run |
| TimeAverages.UtilizationIsBounded | examples/compare.rs:194-198 | for records that overlap no more than that, the reported utilisation is at most one |
| Queueing.NeverMoreThanServers | examples/compare.rs:131-145 | over any run of customers who wait for a server, hold it for their service time and leave, at no instant are more of them served than there are servers, and every record is plausible; whose stays the records are is `QueueingLaws.RecordsAreStays` |
| QueueingLaws.RecordsAreStays | examples/compare.rs:131-145 | over any run, record k is that of the k-th departure and nobody has two: its departure is when the customer left, its service is the one drawn at the arrival, departure less service is when the request was Ready, and less the wait also is the arrival |
| QueueingLaws.StaysMakeChanges | examples/compare.rs:131-166 | in any run in which everybody who came has left, the arrivals and departures are exactly the jumps of the recorded stays |
| QueueingLaws.MeanQueueIsMeasured | examples/compare.rs:187-195 | so the mean queue length reported for such a run is the time average of the number of customers in the hall |
| Queueing.UtilizationIsAtMostOne | examples/compare.rs:131-198 | so the utilisation reported for any such run is at most one |
| TimeAverages.TimeAvg.Add | examples/queueing/common/mod.rs:80-88 | records one change; one at or before start adds no area |
| TimeAverages.TimeAvg.MeanUntil | examples/queueing/common/mod.rs:91-94 | the mean of what was recorded, for changes in time order |

## Left out

- `monte_carlo` and its threads: library behaviour with no state of its own.
- PyO3 conversion and the classification of yielded objects: the driver sees a generator only through
  what `send` gives, and the kernel only through the answer to a request.
- `Rc`, `RefCell`, `Arc<Mutex>`, borrow panics and `SimEnv::drop`: shared cells are objects; when
  memory is reclaimed is not modelled.
- `BinaryHeap`: a heap is the sequence of its entries in pop order.
- IEEE rounding, NaN and overflow, and the logarithms, roots and cosines of the sampling transforms.
- Widths of `u32` priorities, `usize` counts and `u64` tickets: unbounded here.
- Futures moved between processes after a poll: each request and timer has one owner. Several processes
  may listen to one event.
- Systems: a process returns Pending only after polling every future it has begun to poll and still
  holds, as awaits and the combinators do (`Combinators.PendingMeansAllPolled`); futures not polled yet
  may be kept, moved or dropped at will. The firing of an evicted holder's signal is a separate step
  there, and part of the eviction in `PreemptiveResources`.
- SystemLaws.TimerIsExact: a timer is first polled no later than its deadline, as the check in
  `schedule_wakeup` demands; `ExecutorLaws.OrderLaw` and `CombinatorLaws.LatePollRewindsTheClock` are
  about the others.
- SystemExecution.EveryRunIsExecuted: about states in which no process is being polled; the calls a
  program makes between runs are made on the executor directly.
- SimEnvs.SimEnv.Run: stops after a given number of batches and events, because a simulation need not
  end; the bound excludes no run that returns.
- SimEnvs.SimEnv.RunUntil: the same.
- ExecutorLaws.RunUntilSplits: needs both boundaries; `run_until(t1)` followed by `run()` can leave the
  clock at `t1` where `run()` alone leaves it at an earlier last event.
- CombinatorLaws.CombinatorResolvesAtItsGoal: for a boundary at or before the starting time it does not
  say whether a combinator due at once resolves; a spurious wake can make it.
- Combinators: arms other than timeouts; nested combinators.
- QueueingLaws.MeanQueueIsMeasured: for runs in which everybody who came has left, as when the program
  runs to its end; before that the records miss those still in the hall. `mean_wait`, `mean_sojourn` and
  `throughput` are further sums over the same records.
- TokenBuckets: the wait for the concurrency slot, the latency and the statistics of `completion`; the
  bucket has no other producers than its refill.
- Trampolines: a Python call that never returns; `send` and the kernel are total functions of the shared
  world.
- Closures of user processes, destructors that spawn processes, the example scenarios, the viewer, JSON
  output and the statistical harness.
