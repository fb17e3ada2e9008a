# A verified model of the scheduler tree

The repository holds a Linux 3.4 scheduler with an added weighted round-robin (WRR) class, and the programs
of an operating-systems course. This project models the parts that keep hard promises and proves them:

| modules | what they model |
|---|---|
| `RtTypes`, `Lists`, `RtState`, `RtOps`, `RtTheorems`, `RtChanges`, `RtPick`, `RtRunqueue`, `RtScheduler`, `RtTimer`, `RtEvents`, `RtRuns`, `RtMissing` | the hierarchical real-time run queue of one CPU: a tree of priority arrays whose slots depend on what is below them |
| `Kernel` | shared constants, `Option`, `to_ratio` |
| `RtAccounting`, `RtThrottle` | real-time throttling on one CPU, and how much it lets through |
| `RtBandwidth` | how CPUs lend one another runtime and take it back |
| `TreeWalk`, `RtAdmission`, `CfsQuota` | the stackless walk over the group tree, and the two admission tests built on it |
| `LoadDecay`, `LoadAccounting` | the fixed-point arithmetic of the load averages, and the counting of tasks across idle CPUs |
| `WrrQueue`, `ClassChain` | the WRR class, and policies, classes and queues of all tasks |
| `LockOrder` | taking two run-queue locks |
| `BurgerBuddies`, `ProcessDump` | the semaphore exercise and the process-tree dump |

The run queue, the bandwidth pool, the WRR queue, the class queues, the load statistics, the tree walk, the
dump and the power loop are classes and methods that change their objects in place, as the original does. Each
method is tied to a function on snapshots (`Abs()`), and the theorems are lemmas about these functions. The
semaphore exercise and the run-queue locks are step systems: one step is one operation of one thread.

`dafny verify dfyconfig.toml` checks everything.

## What came out

- **Throttle flags.** `__enable_runtime` clears every `rt_throttled` of a CPU without putting the groups back on
  their parents' lists. Afterwards a group is missing from its list iff it was before, or is non-empty and was
  kept off by its flag (`RtTimer.EnableRuntime`); `RtMissing.GoesMissing` leads from an empty CPU to such a group.
  No other operation makes a group missing, in any run (`RtRuns.RunSound`), so without that event the queued groups
  are always right (`RtRuns.RunValid`). An operation on a path repairs that path (`RtOps.EnqueueSound`), and a
  group's own period timer puts it back unless it finds used time and no flag to clear (`RtTimer.PeriodTimer`).
- **Enabling twice.** `__enable_runtime` on a queue that is already enabled makes up or loses runtime unless the
  queue holds exactly its share (`RtBandwidth.EnableTwice`, `EnableTwiceLeaks`). On that conservation rests
  `BUG_ON(want)`.
- **Above the period.** A queue that goes away returns all it has borrowed to the first other queue. All queues
  stay within the period iff it has borrowed nothing or that queue has room for it
  (`RtBandwidth.ReclaimWithinPeriod`; `AbovePeriod` is a case without room).
- **A late delta.** The comment in `calc_global_nohz` orders the new time before the new index so that nobody
  flips twice. A CPU that goes idle between the two, ahead of the new time, writes to the bucket that has just
  been emptied, and its delta comes in one fold late; so it does in every such case and in no other. One that goes
  idle during an update so late that the next window is open already comes in one fold early
  (`LoadAccounting.TurnKept`; `PutOffFromStart` and `HurriedFromStart` are runs from the start).
- **Slow clocks.** `WRRB_TIMESLICE` is zero iff `HZ` is below 100. Exactly then does the wake-up of a background
  task break the invariant (`WrrQueue.SlowClock`); its first tick takes one from an unsigned nothing, and its turn
  lasts 2^32 ticks (`EndlessTurn`).
- **No bound on waiting.** New settings take a WRR task off its queue and put it back with a full slice, and
  `prio_changed_wrr` is empty: the running task goes on, now with a full slice. A waiting task has to wait longer
  iff the running task is put back with part of its slice used, or another one is put before it
  (`WrrQueue.NextApproaches`, `BoundLost`). Every run is bounded by the wait at its start plus what these events
  add (`BoundedWaiting`), and with one of them before every tick nobody else ever runs (`Starved`).
- **The throttling bound is reached**, for every number of periods and all limits with a charge of at least one
  (`RtThrottle.BoundReached`).

## Model

| member | source | states |
|---|---|---|
| `RtState.LinkedBalanced` | project2/code/kernel_sched/rt.c:978-987 | After an insertion bitmap, length and cached best priority again agree with the lists. |
| `RtState.UnlinkedBalanced` | project2/code/kernel_sched/rt.c:989-1013 | So they do after a removal: the bitmap search of `dec_rt_prio` finds the least non-empty list, or 100. |
| `RtState.LinkKeeps` | project2/code/kernel_sched/rt.c:1081-1107 | Linking an entity whose parent is off keeps, in every queue of the tree, lists, counters, boost counts and the leaf list right. |
| `RtState.UnlinkKeeps` | project2/code/kernel_sched/rt.c:1109-1121 | Unlinking does too. |
| `RtState.SameKeys` | project2/code/kernel_sched/rt.c:1123-1126 | Why removal goes top-down: while the entity of a queue is off, no linked entity can see that queue change. |
| `RtOps.OffKeeps` | project2/code/kernel_sched/rt.c:1127-1140 | `dequeue_rt_stack` leaves the whole path off, everything else as it was, and all queues consistent. |
| `RtOps.EnqueueUpKeeps` | project2/code/kernel_sched/rt.c:1142-1147 | Bottom-up insertion puts exactly those members of the path back that belong. |
| `RtOps.RequeueUpKeeps` | project2/code/kernel_sched/rt.c:1149-1159 | The same for the ancestors of a dequeued task. |
| `RtOps.EnqueueSound` | project2/code/kernel_sched/rt.c:1142-1147 | Whatever was wrong with the path, after `enqueue_rt_entity` no group is queued that must not be; only the path is touched, and exactly the groups on it are no longer missing. |
| `RtOps.DequeueSound` | project2/code/kernel_sched/rt.c:1149-1159 | `dequeue_rt_entity` likewise. |
| `RtOps.OperationsValid` | project2/code/kernel_sched/rt.c:1142-1159 | Both keep the invariant of the whole tree, and restore it when only the path is out of place. |
| `RtTheorems.EnqueueOrder` | project2/code/kernel_sched/rt.c:1081-1107 | The exact lists at every level after an enqueue, also index by index: each member of the path leaves its list and goes to the requested end of that of its new priority, and nothing else changes its place. |
| `RtTheorems.DequeueOrder` | project2/code/kernel_sched/rt.c:1149-1159 | The exact lists at every level after a dequeue, also index by index. |
| `Lists.RemoveInsertMoves` | project2/code/kernel_sched/rt.c:1203-1206 | `list_move` takes the entity off its place and puts it at the end asked for; the others keep their order. |
| `Lists.FirstLeaves` | project2/code/kernel_sched/rt.c:1221-1224 | The first of a list that moves to the tail hands its place to the second. |
| `RtTheorems.Determined` | project2/code/kernel_sched/rt.c:978-1159 | Two states with the same queued tasks, flags and missing groups agree on every queued group, bitmap, counter and cached priority: incremental updates never drift. |
| `RtTheorems.DequeueUndoesEnqueue` | project2/code/kernel_sched/rt.c:1142-1159 | Dequeuing undoes enqueuing, up to the place of the ancestors in their lists. |
| `RtTheorems.GroupPrio` | project2/code/kernel_sched/rt.c:1086-1095 | A non-empty group always has a list to go to. |
| `RtChanges.ThrottleSound` | project2/code/kernel_sched/rt.c:879-897 | Setting the flag, and taking the group off unless a boosted member overrides it, leaves nothing queued that must not be and makes no group missing. |
| `RtChanges.ClearedMissing` | project2/code/kernel_sched/rt.c:723-732 | Clearing the flags of any set of queues makes exactly their non-empty, effectively throttled groups missing. |
| `RtChanges.EnqueueGroupSound` | project2/code/kernel_sched/rt.c:429-444 | After `sched_rt_rq_enqueue` the group is not missing; of the others just those above it change. |
| `RtChanges.EnqueueGroupOrder` | project2/code/kernel_sched/rt.c:437-443 | A group that is put back goes to the tail of the list of its priority. |
| `RtChanges.DequeueGroupSound` | project2/code/kernel_sched/rt.c:446-455 | `sched_rt_rq_dequeue` removes a group that may no longer run, without touching its own queue or making another missing. |
| `RtChanges.PrioKeeps` | project2/code/kernel_sched/core.c:4022-4040 | The priorities of a task, boosted and not, may change while it is off. |
| `RtChanges.PrioBreaks` | project2/code/kernel_sched/core.c:4022-4040 | And may not while it is on, if that changes its place or whether it is boosted. |
| `RtChanges.MoveUpKeeps` | project2/code/kernel_sched/rt.c:1196-1219 | Moving a task and its groups within their lists changes order only. |
| `RtChanges.MoveUpOrder` | project2/code/kernel_sched/rt.c:1196-1219 | Each queued member of the path goes to the end asked for of the list it is on, and nothing else in its queue changes its place. |
| `RtChanges.JoinedSound` | project2/code/kernel_sched/rt.c:141-166 | Creating a task or a group queues and loses nothing. |
| `RtPick.BestBelow` | project2/code/kernel_sched/rt.c:842-852 | The cached priority of a queue bounds every task that can be reached through queued groups. |
| `RtPick.PickIsBest` | project2/code/kernel_sched/rt.c:1355-1379 | The descending pick ends at a task no reachable task beats. |
| `RtRunqueue.AddTo` | project2/code/kernel_sched/rt.c:1056-1067 | `list_add`, `__set_bit` and `inc_rt_tasks` on the fields of a queue. |
| `RtRunqueue.DeleteFrom` | project2/code/kernel_sched/rt.c:1069-1079 | `list_del_init`, `__clear_bit` and `dec_rt_tasks` on the fields of a queue. |
| `RtRunqueue.Cpu.DequeueRtStack` | project2/code/kernel_sched/rt.c:1127-1140 | The two loops over the entity stack compute the top-down removal. |
| `RtRunqueue.Cpu.EnqueueRtEntity` | project2/code/kernel_sched/rt.c:1142-1147 | The code computes the specified enqueue, and the result is valid. |
| `RtRunqueue.Cpu.DequeueRtEntity` | project2/code/kernel_sched/rt.c:1149-1159 | The code computes the specified dequeue, and the result is valid. |
| `RtRunqueue.Cpu.constructor` | project2/code/kernel_sched/rt.c:70-98 | A CPU with an empty root queue is valid. |
| `RtScheduler.PickNextEntity` | project2/code/kernel_sched/rt.c:1338-1353 | `BUG_ON(idx >= MAX_RT_PRIO)` is never hit. |
| `RtScheduler.PickNextTask` | project2/code/kernel_sched/rt.c:1355-1379 | The pick is null iff the root may not run; else it ends, at a task of the least priority number among all tasks reachable through queued groups. |
| `RtScheduler.SchedRtRuntimeExceeded` | project2/code/kernel_sched/rt.c:854-901 | Exactly when a queue becomes throttled, or its used time starts again, in its fields; and what that does to the tree. |
| `RtScheduler.ChargedFigures` | project2/code/kernel_sched/rt.c:854-901 | A charge throttles a queue iff it then has used more than a runtime that is limited, below the period and not zero for its group; with no runtime at all the used time starts again. |
| `RtScheduler.ChargedOnce` | project2/code/kernel_sched/rt.c:936-946 | Charging goes to each queue from the task's own to the root exactly once. |
| `RtScheduler.UpdateCurrRt` | project2/code/kernel_sched/rt.c:907-947 | After a charge, queue by queue in the fields: each queue from the task's own to the root has, unless it is unlimited, used that much more, and is throttled iff it was, or has used more than a runtime that is below its period and not zero for its group; no other queue changes; no group that is effectively throttled is queued; none goes missing; the task is to be rescheduled iff a limited queue above it ends up effectively throttled. |
| `RtTimer.PeriodTimer` | project2/code/kernel_sched/rt.c:789-840 | In the fields of the queue: one runtime is paid back for each period, the flag is cleared iff less than one runtime is left of a used time, and a non-empty group whose flag was cleared, or that may run and has used nothing, is queued afterwards; the idle verdict; and, from any state, which groups are missing. |
| `RtTimer.RefillFigures` | project2/code/kernel_sched/rt.c:801-827 | The specified refill in figures: time left, flag, and when the group is asked for. |
| `RtTimer.RefillDecides` | project2/code/kernel_sched/rt.c:799-834 | The timer's own group stays missing iff used time was found and no flag cleared. |
| `RtTimer.TimedIsOn` | project2/code/kernel_sched/rt.c:831-832 | A non-empty group that the timer asks for and that may run is queued afterwards. |
| `RtTimer.AllTimersRestore` | project2/code/kernel_sched/rt.c:795-836 | Once the timers of all groups have found no used time, the invariant of the whole tree holds again. |
| `RtTimer.EnableRuntime` | project2/code/kernel_sched/rt.c:712-734 | The loop resets every queue of the CPU, from any state; exactly which groups are missing then. |
| `RtTimer.EnabledValid` | project2/code/kernel_sched/rt.c:712-734 | A valid run queue stays valid iff no non-empty group was kept off by its flag. |
| `RtEvents.SetTaskPrio` | project2/code/kernel_sched/core.c:3990-4044 | A new priority for a task, queued or not, into the class, inside it or out of it: off, change, on; the task ends linked iff it is a queued real-time task, and then first in the list of the new priority iff the priority has dropped, else last. |
| `RtEvents.SetTaskScheduler` | project2/code/kernel_sched/core.c:4378-4396 | Likewise for a new policy with both priorities: off, change, on as the last of its list. |
| `RtEvents.ReprioritisedOrder` | project2/code/kernel_sched/core.c:4022-4040 | In the queue of the task nothing else changes its place. |
| `RtEvents.RequeueTaskRt` | project2/code/kernel_sched/rt.c:1196-1224 | Every queued member of the path is then the last (or first) of the list it was on, the others of that list in their order; no other list changes, and no group goes missing. |
| `RtEvents.Join` | project2/code/kernel_sched/rt.c:141-166 | The tree grows by a task or a group; no group is queued or lost by it. |
| `RtRuns.RunSound` | project2/code/kernel_sched/rt.c:712-1224 | In every run of enqueues, dequeues, charges, timers, changes of policy and priorities, yields, new tasks and groups, and CPUs that go and return: lists, bitmaps and counters agree, no group is queued that must not be, and only groups that `__enable_runtime` freed are missing. |
| `RtRuns.RunValid` | project2/code/kernel_sched/rt.c:789-1224 | Without returning CPUs a group is queued iff it may run, in every state of every run. |
| `RtMissing.GoesMissing` | project2/code/kernel_sched/rt.c:712-734 | From an empty CPU: a group, a task in it, a charge beyond its runtime, and the CPU coming back leave the group missing. |
| `RtAccounting.Replenished` | project2/code/kernel_sched/rt.c:808-808 | What is paid back is at most what was used, and at most `overrun` runtimes. |
| `RtThrottle.ThrottlingBound` | project2/code/kernel_sched/rt.c:789-946 | When the timer has reported K periods, at most (K + 1) runtimes, one charge, and what was charged since the queue was last throttled have gone to real-time tasks, in every run. |
| `RtThrottle.PromptBound` | project2/code/kernel_sched/rt.c:789-946 | When a throttled task is rescheduled promptly, that is (K + 1) runtimes and two charges. |
| `RtThrottle.BoundReached` | project2/code/kernel_sched/rt.c:879-901 | For every K and all limits there is a prompt run that attains both bounds. |
| `RtThrottle.StepKeeps` | project2/code/kernel_sched/rt.c:907-946 | What every charge, refill and reschedule keeps. |
| `RtThrottle.ThrottledGetsNothing` | project2/code/kernel_sched/rt.c:1355-1368 | A throttled queue that has been switched away from gets nothing more, however long, until the timer fires or the running task is made a real-time task. |
| `RtThrottle.ThrottledNotForLong` | project2/code/kernel_sched/rt.c:799-818 | It is unthrottled iff the timer pays back what it used beyond one runtime. |
| `RtThrottle.Cpu.UpdateCurrRt` | project2/code/kernel_sched/rt.c:907-947 | The code computes the specified charge. |
| `RtThrottle.Cpu.PeriodTimer` | project2/code/kernel_sched/rt.c:789-840 | The code computes the specified refill. |
| `RtBandwidth.BalancedKeeps` | project2/code/kernel_sched/rt.c:570-621 | Borrowing conserves runtime; lenders keep what they have used, queues without spare time lend nothing, a borrower stays within the period. |
| `RtBandwidth.BalancedShares` | project2/code/kernel_sched/rt.c:599-616 | Nobody lends more than one n-th of what it has to spare; unless the borrower reaches the period everybody lends that, and in any case all do before the last one that lends. |
| `RtBandwidth.NeverLeftWanting` | project2/code/kernel_sched/rt.c:625-699 | `BUG_ON(want)` is unreachable, for positive and negative want, and conservation holds again without the queue. |
| `RtBandwidth.EnableTwice` | project2/code/kernel_sched/rt.c:712-734 | Enabling an enabled queue conserves runtime iff it has exactly its share. |
| `RtBandwidth.EnableTwiceLeaks` | project2/code/kernel_sched/rt.c:712-734 | A case in which it does not. |
| `RtBandwidth.ReclaimWithinPeriod` | project2/code/kernel_sched/rt.c:625-699 | Exactly when a reclaim leaves every queue within the period. |
| `RtBandwidth.TakingShrinks` | project2/code/kernel_sched/rt.c:659-681 | A queue that has lent takes from no queue before all earlier ones have nothing left. |
| `RtBandwidth.AbovePeriod` | project2/code/kernel_sched/rt.c:676-679 | A case in which it does not. |
| `RtBandwidth.RunConserves` | project2/code/kernel_sched/rt.c:570-734 | Over any run, total runtime = number of enabled queues times the share, and no queue would be left wanting. |
| `RtBandwidth.RootDomain.DoBalanceRuntime` | project2/code/kernel_sched/rt.c:570-621 | The loop computes the specified loans; `more` iff somebody had spare time. |
| `RtBandwidth.RootDomain.DisableRuntime` | project2/code/kernel_sched/rt.c:625-702 | The loop computes the specified reclaim, and ends with nothing wanted. |
| `RtBandwidth.RootDomain.EnableRuntime` | project2/code/kernel_sched/rt.c:712-734 | Exactly when enabling keeps the pool valid. |
| `TreeWalk.WalkFrom` | project2/code/kernel_sched/core.c:688-717 | The goto loop ends on every finite tree and, from any start, returns what the recursive walk returns. |
| `TreeWalk.VisitIsTour` | project2/code/kernel_sched/core.c:682-687 | The recursive walk makes the calls of the pre/post-order tour, in order, up to the first that answers non-zero. |
| `TreeWalk.TourLength` | project2/code/kernel_sched/core.c:682-687 | Two calls for each node. |
| `TreeWalk.TourNests` | project2/code/kernel_sched/core.c:682-687 | A node comes before its subtree on the way down and after it on the way up, with the tours of its children in between, in order and without a gap. |
| `TreeWalk.SameTree` | project2/code/kernel_sched/core.c:688-717 | A group roots one tree only, so the walk recognises its start. |
| `RtAdmission.TgRtSchedulable` | project2/code/kernel_sched/core.c:7606-7660 | The loop judges a group as if the change were already made; `-EBUSY` iff it would leave a group with real-time tasks without runtime. |
| `RtAdmission.PassesIffAllFit` | project2/code/kernel_sched/core.c:7662-7677 | A change passes iff afterwards every group is admissible. |
| `RtAdmission.NobodyStarved` | project2/code/kernel_sched/core.c:7627-7631 | Unless real-time time is unlimited, no change that passes leaves a group with real-time tasks without runtime. |
| `RtAdmission.ApplyFinds` | project2/code/kernel_sched/core.c:7690-7692 | The group gets the new settings, and no other group does. |
| `RtAdmission.AddLeafFinds` | project2/code/kernel_sched/core.c:7487-7491 | A new group is below its parent afterwards, and no other group changes. |
| `RtAdmission.AntichainBound` | project2/code/kernel_sched/core.c:7633-7657 | Groups of which none contains another together stay below the group above them. |
| `RtAdmission.NobodyOversold` | project2/code/kernel_sched/core.c:7572-7578 | Their true shares are less than the global share and 2^-20 for each. |
| `RtAdmission.StepKeeps` | project2/code/kernel_sched/core.c:7679-7848 | Every accepted or refused change, creation, removal and sysctl write keeps the constraints. |
| `RtAdmission.NeverOversold` | project2/code/kernel_sched/core.c:7679-7848 | Hence the bound holds in every state reachable from boot. |
| `RtAdmission.Groups.TgSetRtBandwidth` | project2/code/kernel_sched/core.c:7679-7707 | Granted, the group has exactly the new settings and every other one its old ones; refused, nothing changes. |
| `RtAdmission.Groups.SetRtRuntime` | project2/code/kernel_sched/core.c:7709-7719 | A granted runtime is the one asked for, in nanoseconds, or unlimited if negative; the period stays. |
| `RtAdmission.Groups.SetRtPeriod` | project2/code/kernel_sched/core.c:7733-7744 | A zero period is refused; a granted one is the one asked for, and the runtime stays. |
| `RtAdmission.Groups.SchedRtHandler` | project2/code/kernel_sched/core.c:7820-7848 | New sysctl values, the period read as an unsigned word, are taken back iff they do not pass; else they are in force, with a runtime within the period. |
| `CfsQuota.CfsGroup.SchedulableDown` | project2/code/kernel_sched/core.c:8124-8150 | The visitor on a group computes what the specified one does, and leaves a refused group's stored quota alone. |
| `CfsQuota.VisitSettles` | project2/code/kernel_sched/core.c:8124-8150 | The walk of a subtree succeeds iff no group asks for more than the limit above it, and then writes every group's limit down. |
| `CfsQuota.QuotasSettled` | project2/code/kernel_sched/core.c:8104-8171 | Each `hierarchal_quota` is that of the nearest group with a quota, never above the parent's; the verdict does not depend on stale values. |
| `CfsQuota.SettingsCount` | project2/code/kernel_sched/core.c:8104-8171 | The changed group is counted by the settings asked for, every other one by its own, in microseconds; an unlimited one has its parent's limit, and the root none. |
| `LoadDecay.RoundNear` | project2/code/kernel_sched/core.c:2297-2300 | Rounding is off by half a unit at most. |
| `LoadDecay.FixedPowerInt` | project2/code/kernel_sched/core.c:2436-2456 | The loop computes the specified power, in one round for each bit of n. |
| `LoadDecay.PowerNear` | project2/code/kernel_sched/core.c:2420-2456 | Off the true power by at most (n - 1) / 2, and never above one. |
| `LoadDecay.IdealIsQuotient` | project2/code/kernel_sched/core.c:2420-2435 | The true power is x^n / s^(n-1). |
| `LoadDecay.IterateNear` | project2/code/kernel_sched/core.c:2294-2301 | n periods one by one are off the true decay by n / 2 at most. |
| `LoadDecay.FastNear` | project2/code/kernel_sched/core.c:2480-2487 | How far n periods at once are off it. |
| `LoadDecay.FastMeetsSlow` | project2/code/kernel_sched/core.c:2458-2487 | The two differ by at most (n + 1) / 2 + (n - 1) * abs(load - active) / 4096. |
| `LoadAccounting.StepAccounts` | project2/code/kernel_sched/core.c:2276-2289 | Every step keeps: global count + both buckets = what the CPUs have reported. |
| `LoadAccounting.StepInTurn` | project2/code/kernel_sched/core.c:2349-2419 | Every step keeps: each fold and each bucket is worth the deltas it holds, and which fold a delta went to or will go to. |
| `LoadAccounting.StepPlaces` | project2/code/kernel_sched/core.c:2374-2419 | Every step keeps each delta in exactly one bucket or fold. |
| `LoadAccounting.TurnKept` | project2/code/kernel_sched/core.c:2323-2366 | In every run from the start a delta comes in with the fold its window intends, but one fold late iff it was written between the new time and the new index ahead of the new time, and one fold early iff it was written during an update with the next window already open. |
| `LoadAccounting.WindowSkipped` | project2/code/kernel_sched/core.c:2390-2406 | A CPU that wakes up inside a window is not asked again before the next one. |
| `LoadAccounting.PutOffHappens` | project2/code/kernel_sched/core.c:2518-2528 | From any state before a fold there is a run in which a delta misses the next fold and comes in alone with the one after. |
| `LoadAccounting.PutOffFromStart` | project2/code/kernel_sched/core.c:2518-2528 | So from the start, fold by fold. |
| `LoadAccounting.HurriedFromStart` | project2/code/kernel_sched/core.c:2536-2567 | A run from the start with a delta one fold early. |
| `LoadAccounting.AllAccounted` | project2/code/kernel_sched/core.c:2276-2585 | In every interleaving from the start, with index flips and CPU removal as steps of their own, nothing reported is lost or counted twice. |
| `LoadAccounting.CountIsRight` | project2/code/kernel_sched/core.c:2573-2585 | In every run from the start: once each CPU has reported, by a tick in its window or by going idle, and has not changed since, count and buckets add up to the active tasks of all CPUs, and with empty buckets the count alone. |
| `LoadAccounting.CaughtUpGate` | project2/code/kernel_sched/core.c:2498-2517 | The code's formula skips just as many periods as adding them one by one until the gate is closed; no period too many is skipped. |
| `LoadAccounting.LoadStats.CalcGlobalLoad` | project2/code/kernel_sched/core.c:2536-2567 | A whole update: the count grows by one bucket, which is emptied, and the buckets change places; the averages decay by one period and those missed, and if none was missed, each is the old one and the active tasks in proportion, to the nearest 1/2048; gate closed. |
| `LoadAccounting.AveragesWeighed` | project2/code/kernel_sched/core.c:2294-2301 | One period weighs each average against the active tasks, by 1884, 2014 and 2037 to 2048. |
| `LoadAccounting.LoadStats.EnterIdle` | project2/code/kernel_sched/core.c:2374-2388 | What the CPU has not reported yet goes to the bucket in turn, and counts as reported; the other bucket stays. |
| `LoadAccounting.LoadStats.ExitIdle` | project2/code/kernel_sched/core.c:2390-2408 | A CPU that wakes up before its window keeps its time; else it takes over the global one, or one period more inside the window. |
| `LoadAccounting.LoadStats.AccountActive` | project2/code/kernel_sched/core.c:2573-2585 | A tick at the CPU's time or later: its report becomes its active tasks, the count grows by the difference, and its time by one period; an earlier one changes nothing. |
| `LoadAccounting.LoadStats.GlobalLoadRemove` | project2/code/kernel_sched/core.c:5328-5332 | A removed CPU's report is taken out of the count. |
| `WrrQueue.NextKeeps` | project2/code/kernel_sched/wrr.c:651-848 | Under every event each slice stays between one tick and the full slice of its task, `wrr_nr_running` is the queue's length, and a queued task runs. |
| `WrrQueue.SettledKeeps` | project2/code/kernel_sched/core.c:4378-4396 | The head goes on being the task that runs, unless the running task is put back behind another one, or another one before it. |
| `WrrQueue.SlowClock` | project2/code/kernel_sched/wrr.c:719-728 | The wake-up of a background task keeps the invariant iff HZ is at least 100. |
| `WrrQueue.EndlessTurn` | project2/code/kernel_sched/wrr.c:1078-1079 | With nothing left of its slice the head runs for 2^32 ticks. |
| `WrrQueue.EndlessAfterWakeUp` | project2/code/kernel_sched/wrr.c:719-728 | So does every background task that wakes up on an idle CPU, when HZ is below 100. |
| `WrrQueue.NextWait` | project2/code/kernel_sched/wrr.c:651-848 | By how much each event changes the ticks a task still has to wait. |
| `WrrQueue.NextApproaches` | project2/code/kernel_sched/wrr.c:651-848 | A waiting task has to wait longer after an event iff this puts the running task back with part of its slice used, or another one before it; every tick brings it nearer. |
| `WrrQueue.BoundedWaiting` | project2/code/kernel_sched/wrr.c:1063-1121 | In every run a queued task runs after at most as many ticks as the running task and those ahead of it have left, and as it is pushed back by. |
| `WrrQueue.ExactWait` | project2/code/kernel_sched/wrr.c:1063-1121 | When only ticks happen it waits for exactly that many. |
| `WrrQueue.BoundLost` | project2/code/kernel_sched/core.c:4378-4396 | The bound before an event still holds after it iff the event does not push the task back. |
| `WrrQueue.Starved` | project2/code/kernel_sched/core.c:4378-4396 | Runs of any length, from every state with a waiting task, in which the running task is put back before every tick and nobody else ever runs. |
| `WrrQueue.Turn` | project2/code/kernel_sched/wrr.c:1063-1121 | The head runs for its whole slice and goes to the tail with a full one. |
| `WrrQueue.WeightedFairness` | project2/code/kernel_sched/wrr.c:1063-1121 | Every block of all slices together charges each task its own, and restores queue and slices. |
| `WrrQueue.TenfoldShare` | project2/code/kernel_sched/wrr.c:719-728 | With a clock of full hundreds a background task gets a hundredth of a second in each block, and a foreground task exactly ten times that. |
| `WrrQueue.Rq.EnqueueTaskWrr` | project2/code/kernel_sched/wrr.c:689-739 | The task gets a full slice and goes to the end asked for, the others in their order. |
| `WrrQueue.Rq.TaskTickWrr` | project2/code/kernel_sched/wrr.c:1063-1121 | One tick off the slice; the last one brings a full slice, the tail of the queue, and a reschedule if others wait. |
| `WrrQueue.Rq.PutBack` | project2/code/kernel_sched/core.c:4378-4396 | New settings for a queued task compute the specified event, without a reschedule. |
| `WrrQueue.Rq.RequeueTaskWrr` | project2/code/kernel_sched/wrr.c:784-808 | A queued task goes to the end asked for, the others in their order. |
| `WrrQueue.Rq.PickNextTaskWrr` | project2/code/kernel_sched/wrr.c:876-914 | The head, or nothing iff the queue is empty. |
| `ClassChain.RequeueKeeps` | project2/code/kernel_sched/core.c:4022-4040 | Off the queue, new settings, back on: every queue is right again. |
| `ClassChain.StepKeeps` | project2/code/kernel_sched/core.c:3990-4396 | Every operation keeps the policy known, policy, class, priority and queue in agreement, and `nr_running` the sum of the queues. |
| `ClassChain.Reachable` | project2/code/kernel_sched/core.c:3990-4396 | Hence they agree in every state of every run of these operations and forks. |
| `ClassChain.FromBoot` | project2/code/kernel_sched/core.c:7115-7287 | In particular from boot, where all other tasks descend from the first. |
| `ClassChain.ForkedOk` | project2/code/kernel_sched/core.c:1766-1806 | A child inherits neither a boost nor a class its policy does not have; what policy, priority and nice value it has, with and without reset on fork. |
| `ClassChain.ForkKeeps` | project2/code/kernel_sched/core.c:1766-1806 | Forking keeps the invariant. |
| `ClassChain.ShortCut` | project2/code/kernel_sched/core.c:3328-3350 | The short cut for fair tasks finds what the walk over the classes would. |
| `ClassChain.PickIsBest` | project2/code/kernel_sched/core.c:3328-3350 | Nobody runs while a task of a higher class, or a better real-time task, could; the pick is the first of its list. |
| `ClassChain.PickedPriority` | project2/code/kernel_sched/core.c:1037-1046 | Among queued SCHED_FIFO and SCHED_RR tasks without a boost, one of the highest user priority is picked, before any task without such a policy. |
| `ClassChain.Rq.SchedSetscheduler` | project2/code/kernel_sched/core.c:4249-4402 | Exactly which requests are refused, and then nothing changes; granted, the task has the policy and priority asked for, `normal_prio` 99 less that, `prio` the better of this and its best waiter, the class that follows, and the tail of its list. |
| `ClassChain.Rq.RtMutexSetprio` | project2/code/kernel_sched/core.c:3990-4044 | `prio` and class follow the best waiter, all other settings stay; a queued task goes to the head of its list iff its priority drops, else to the tail. |
| `ClassChain.Rq.SetUserNice` | project2/code/kernel_sched/core.c:4046-4090 | A nice value out of range changes nothing; another one sets the static priority, and for a task without a real-time policy the other two, unless it is boosted into the real-time class. |
| `ClassChain.Rq.NormalizeTask` | project2/code/kernel_sched/core.c:7344-7360 | The task becomes a SCHED_NORMAL one of its nice value, and keeps no more than a boost. |
| `ClassChain.Rq.PickNextTask` | project2/code/kernel_sched/core.c:3328-3350 | The code finds what the walk finds. |
| `ClassChain.ForkChild` | project2/code/kernel_sched/core.c:1766-1806 | The code computes the specified child. |
| `LockOrder.StepKeeps` | project2/code/kernel_sched/sched.h:1079-1117 | A thread only ever spins on a lock above all it holds; a lock has one holder. |
| `LockOrder.NoCycle` | project2/code/kernel_sched/sched.h:1079-1182 | No circle of threads waiting for one another, of any length, in any run. |
| `LockOrder.SomebodyMoves` | project2/code/kernel_sched/sched.h:1079-1182 | While a thread is inside, some thread can take its lock or give one back. |
| `LockOrder.Exclusive` | project2/code/kernel_sched/sched.h:1079-1182 | No two threads hold the same lock, in any run. |
| `LockOrder.LockedBoth` | project2/code/kernel_sched/sched.h:1079-1165 | A thread that asks for two locks holds exactly those once it spins no more, whatever the others do meanwhile. |
| `BurgerBuddies.StepKeeps` | project1/code/problem4_BurgerBuddiesProblem/jni/BurgerBuddies.c:36-83 | Every semaphore operation keeps the balance of the semaphores, and uses up exactly one of the operations left. |
| `BurgerBuddies.RackConserved` | project1/code/problem4_BurgerBuddiesProblem/jni/BurgerBuddies.c:36-69 | Free, filled, being filled and being emptied slots add up to the rack. |
| `BurgerBuddies.StuckMeansFinished` | project1/code/problem4_BurgerBuddiesProblem/jni/BurgerBuddies.c:36-83 | Nobody is stuck while a customer remains. |
| `BurgerBuddies.EveryoneServed` | project1/code/problem4_BurgerBuddiesProblem/jni/BurgerBuddies.c:36-140 | Every run is finite; every maximal one has the same length, serves every customer one burger, and leaves the rack full. |
| `ProcessDump.PsCopy` | project1/code/problem1_pstree/pstreecall.c:34-81 | The recursive search writes the dump at `nr`, and nothing else. |
| `ProcessDump.DumpLength` | project1/code/problem1_pstree/pstreecall.c:34-81 | One record for each descendant. |
| `ProcessDump.DumpTells` | project1/code/problem1_pstree/pstreecall.c:44-79 | The records are those of the descendants in preorder, each with the pid, state, uid, name and depth of its task. |
| `ProcessDump.DumpDecodes` | project1/code/problem1_pstree/pstreecall.c:34-81 | Pids and depths alone give back the forest. |
| `ProcessDump.LinesAreForest` | project1/code/problem1_pstree/pstreecall.c:34-81 | Every list of lines that begins at the top and goes down one level at a time is the dump of the forest read from it. |
| `ProcessDump.DumpLinks` | project1/code/problem1_pstree/pstreecall.c:44-64 | `parent_pid` is the nearest earlier record one level up; `first_child_pid` the next record iff that is one level down; `next_sibling_pid` the following sibling. |
| `ProcessDump.ZeroMeansLeaf` | project1/code/problem1_pstree/pstreecall.c:47-54 | With non-zero pids a zero child means: no children. |

## Left out

- Real-time run queue: one CPU; `exec_start`, SMP push/pull, cpupri and migration counts are not modelled, and of the reschedule flag only what `update_curr_rt` asks for; the bandwidth of a group does not change while it is scheduled.
- Real-time run queue: a task's move from group to group. What other classes do with a task that leaves this one is in `ClassChain`, with a flat real-time queue.
- RtThrottle.PromptBound: assumes that a task whose queue is throttled and whose reschedule flag is set is next charged when it is switched away from, and that nobody makes the running task real-time while the queue is throttled; `ThrottlingBound` does not.
- `RtBandwidth`: one root domain with a fixed set of CPUs; locks and the drift of `rt_time` against the clock are inputs. All shares together are assumed to fit a signed word, and so are used times.
- Kernel.ToRatio: the shift by 20 and the sum over the children are exact, that is, assumed to fit the word; the microsecond conversions do wrap.
- `CfsQuota`, `RtAdmission`: visitors are functions on the data handed along, because a walk over objects cannot be given methods; who has real-time tasks is an input. The refill of the CFS pool is not modelled.
- LoadDecay.FixedPowerInt: unbounded integers; with an 11-bit fraction all intermediate values fit 32 bits.
- LoadAccounting: `jiffies` does not wrap, and each report of a CPU is one atomic step; the phases of the global update are separate steps.
- WRR: groups and throttling; the former do not fit the structures, and the assignment that would throttle is commented out. The control-group path test is one bit of a task. A task does not change its control group.
- ClassChain: the stop class (no stop task is runnable), the inside of the fair class, permission checks, and real-time groups. The priority given to `rt_mutex_setprio` is what `rt_mutex_getprio` returns; rtmutex.c is not part of this model.
- ProcessDump.DumpLinks: says nothing about `next_sibling_pid` of a last sibling. The code compares the list head, taken for a task, with the parent; their offsets differ, so the intended 0 is not produced and the field holds whatever lies there (`stray`).
- BurgerBuddies: sleeping times, printing and thread creation.
- Everything else of the tree: load balancing, scheduling domains, context switch, IRQ time, `debug.c`, the course's test programs.
