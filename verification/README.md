# A verified model of the work-stealing scheduler

The scheduler takes tasks from any number of submitting threads into three priority injectors (HIGH, NORMAL, LOW), runs
them on a fixed set of workers with one FIFO deque each, counts them per scheduler and per task group, and shuts down by
draining. This project models that as one transition system at the grain of single atomic operations and proves what
holds in every state of every run.

`dafny verify dfyconfig.toml` checks the whole project.

## How the model is built

- `Memory.dfy` is the shared memory and the effect of one atomic operation on it: a load, a store, a `fetch_add`, a
  weak compare-exchange, a counter increment, or one queue call.
- `Programs.dfy` is the code of each thread as a program counter: which operation comes next and where the answer leads.
  A submission is `push_internal` with the reservation loop and the group registration inlined; a worker is
  `worker_main` with its three searches, each search one probe per step; a waiter is either of the two `wait` loops.
- `Machine.dfy` is the transition system: an unbounded number of submissions, groups and waiters, any number of workers,
  and an event for each thread's next operation. A run is a sequence of states joined by events. `Record`, and the
  fields of `Worker`, `WaiterPc` and `Waiter` marked as history, are written by steps and never read by them.
- `Custody.dfy` and `Ledger.dfy` hold the inductive invariants; `Accounting.dfy`, `Theft.dfy`, `Draining.dfy`,
  `Departure.dfy`, `Waiting.dfy`, `Capacity.dfy`, `Admission.dfy`, `Searching.dfy`, `Sleeping.dfy`, `Ordering.dfy`,
  `Fairness.dfy`, `Inversion.dfy`, `Residence.dfy` and `LowerProgress.dfy` hold the results, all stated over runs.
  `Surroundings.dfy` says what other threads can do to one worker's deque and to the injectors.
- `Scheduler.dfy`, `WorkerLoop.dfy` and the class in `Victims.dfy` are the same operations as structured code: classes
  with loops and branches in the order of the source. Before every atomic operation any other threads may take any
  number of steps, and every operation must be the one the program counter asks for. So each execution of that code is a
  run of the transition system, and its contracts draw on the results about runs. A submission also logs its operations
  with their answers: `Log` lists, in source order, those of each of the seven courses it can take.
- `Witnesses.dfy` and `Scenarios.dfy` build concrete runs: they show that tasks do get executed, also those of groups,
  that workers do go to sleep, and that the bounds fail without their corrections.

Assumptions, as the model states them: atomics are sequentially consistent; each crossbeam call is one atomic step;
`steal_batch_and_pop` answers with the injector's head and appends a further prefix, of any length up to a parameter, to
the back of the caller's deque; `pop` and `steal` take the front; `Empty` is answered only by an empty queue; `Retry`
changes nothing and may come at any time; a condvar wait may return at any time, whoever is notified; callbacks
terminate; counters do not overflow. That counters never go below zero is proved (`NoUnderflow`), not assumed.

The mutexes `sleep_lock` and `wait_lock` are not modelled. They only exclude interleavings, and every theorem
about runs is about all interleavings, so each also holds with the locks in place. The runs of `Witnesses.dfy` are
possible with the locks too: their workers search only before the lock (src/worker.rs:247-280), no thread waits, and
neither a submission nor the completion of a task takes a lock. So are those of `Scenarios.dfy`: one worker is alone in
its sleeping section, and the wait starts when the work is done.

## Five claims and where they hold

- 32 times a worker's fairness yields (less those ended by `Retry`) plus its streak against the HIGH tasks it has
  selected. `YieldsArePaid` proves the account as an equality: the HIGH tasks selected are 32 per decided yield, plus the
  streak, plus the streaks that lower tasks broke off outside the fairness path. So the bound holds exactly when the
  worker is not between the counting of a yield (src/queue.rs:261) and the decision of the fairness path, or has lost 32
  or more to broken streaks. `YieldBoundFailsInDetour` reaches a state in which it fails.
- At most 32 HIGH tasks in a row. `BurstExact` proves, over any stretch in which a worker selects only HIGH tasks, that it
  selects as many as its streak grows plus 32 for each dry detour, one that found NORMAL and then LOW empty
  (src/queue.rs:263-289). So it selects 33 or more exactly when that sum reaches 33. While NORMAL is never empty, or LOW
  never is, it does not (`BurstLimit`). It is not enough that at each moment one of the two has something, because they
  are probed one after the other: `BurstNeedsOneInjector` is a run with 33 HIGH selections in a row.
- The bound on priority inversion for a HIGH task with p ahead of it, k + p + floor((s + h + p) / 32) * (1 + B) + 1
  selections, holds for a worker that is not past the HIGH injector in its current search, and for one that is past it
  with nowhere left to look. Elsewhere `BoundedInversion` adds a surcharge: 1 among the peers, 1 + B before NORMAL or LOW,
  and 2 + B where there are peers and one more HIGH task fills a burst, since that task may be stolen and the detour after
  it brings a batch. None of the three can be lowered for the head of the injector: `InversionNeedsOne`,
  `InversionNeedsBatch` and `InversionNeedsBurst` are runs, for every batch bound, that use the surcharge up from every
  kind of probe that has it (the two that steal need B at least 1, since with B = 0 nothing ever gets into a deque).
- 33 * (p + L + 1) selections, less the streak, for a NORMAL task with p ahead of it, and for a LOW one while NORMAL is
  empty. A worker with peers still to try may need one more and loses the credit for its streak, and so does, for a NORMAL
  task, one about to look into LOW, which may need 33 * B + 1 more (`NormalIsServed`, `LowIsServed`).
  `LowerNeedsOneMore` is a run for either injector that makes 33 * (0 + 0 + 1) selections from every probe with peers
  still to try, with the task still in place.
- A task that is queued while a worker is blocked has been, or is about to be, announced. `NoTaskUnannounced` proves it:
  the call that published the task has not yet looked at the sleeping workers (src/worker.rs:152-163), or it looked while
  this worker was counted and notifies. It does not follow that the notification comes after the worker has blocked,
  since it is sent without the lock and may fall between the last search and the condvar (src/worker.rs:353-422).
  `NotifiedWhileBlocked` proves that it comes after if and only if the call had not returned when the worker blocked, and
  `NotifiedTooEarly` is a run in which it comes before.

## Where comments and code differ

The model follows the code.

- The header of `worker_main` lists the local deque as the first place to look (src/worker.rs:218-223); `pop_for_worker`
  takes the fairness path before the local deque when the burst limit is reached (src/queue.rs:249-289).
- The comment on `push_internal` announces capacity enforcement as still to come (src/scheduler.rs:601-603); it is there
  (src/scheduler.rs:631).
- The comment on the last search says that it closes the race between a submission and the worker entering the condvar
  (src/worker.rs:345-352). It does as far as `SleepsOnNothing` and `NoTaskUnannounced` say; a notification sent between
  that search and the condvar still reaches nobody (`NotifiedTooEarly`).

## Model

| member | source | states |
|---|---|---|
| `Queues.PushBag` | src/queue.rs:210-233 | publishing adds exactly one occurrence of the task to the queues |
| `Queues.TakeBatchBag` | src/queue.rs:402-426 | a batch takes exactly the injector's head out of the system; the rest only changes place |
| `Queues.TakeFrontBag` | src/queue.rs:295-305 | a pop or a steal takes exactly one task out of the system |
| `Victims.VictimListIsPermutation` | src/steal.rs:80-120 | for every worker and cursor the victim list contains every peer once and never the worker itself |
| `Victims.VictimListInOrder` | src/steal.rs:97-117 | the victims come in the order in which the ring reaches them from one past the worker plus its cursor |
| `Victims.RingOrderIsUnique` | src/steal.rs:97-117 | that order and the set of peers leave only one list |
| `Victims.WalkDone` | src/steal.rs:101-117 | the early break drops no victim: stopping at n - 1 victims or at the end of the ring gives the same list |
| `Victims.FirstVictimIsHead` | src/steal.rs:93-108 | which peer is probed first, also when the ring starts at the worker itself |
| `Victims.RotationIsFair` | src/steal.rs:88-99 | over any n consecutive calls every peer is probed first exactly once, except the next one on the ring, exactly twice |
| `Victims.StealState.constructor` | src/steal.rs:30-41 | a worker count of zero becomes one; the cursor starts at zero |
| `Victims.StealState.RoundRobinVictims` | src/steal.rs:80-120 | the loop with skip and break yields every peer once, in ring order, and the cursor moves by one when there are peers |
| `Custody.ExecBag` | src/queue.rs:402-459 | each operation takes the task it answers with out of the queues once, or adds the one it pushes, and nothing else |
| `Custody.HandStep` | src/worker.rs:181-211 | a worker's hand changes only by taking what a queue answered, moving on with it in order, or letting go after its slot is freed |
| `Custody.StepCustody` | src/queue.rs:242-352 | every step keeps queues, hands and records in agreement, both ways |
| `Ledger.CallDelta` | src/scheduler.rs:604-733 | every operation of a submission moves slot count and statistics by exactly the change of its own claim |
| `Ledger.CallGroupDelta` | src/group.rs:39-85 | the same for the group count, across registration, both roll-backs and publication |
| `Ledger.HandSlotDelta` | src/worker.rs:86-110 | a worker gives a slot back exactly when its task passes from recorded to freed |
| `Ledger.HandGroupDelta` | src/worker.rs:205-210 | the group count drops exactly when a worker lets go of a task of that group |
| `Ledger.SleepDelta` | src/worker.rs:338-429 | the sleeping count changes exactly when a worker enters or leaves its sleeping section, on every way out |
| `Ledger.StealDelta` | src/queue.rs:437-468 | attempts, successes, failures, retries and steals in progress stay in balance at every step |
| `Ledger.YieldDelta` | src/queue.rs:256-261 | the yield statistic counts the entries into the fairness path |
| `Ledger.RunInvariant` | src/scheduler.rs:604-733 | custody and all balances hold in every state of every run |
| `Accounting.ExactlyOnce` | src/worker.rs:181-211 | every published task is, with multiplicity, in exactly one place; its callback runs at most once, and once when done |
| `Accounting.AcceptedOnce` | src/scheduler.rs:704-733 | every accepted submission has a published task of its own with its priority and group |
| `Accounting.RejectedNever` | src/scheduler.rs:614-702 | a submission that returned an error published nothing |
| `Accounting.SlotAccount` | src/scheduler.rs:399-448 | in every state the in-flight count is reserved submissions plus queued tasks plus tasks taken and not yet given back |
| `Accounting.GroupAccount` | src/group.rs:39-85 | in every state a group's count is its registered submissions plus its queued plus its held tasks |
| `Accounting.NoUnderflow` | src/scheduler.rs:792-801 | no count ever goes below zero |
| `Accounting.StatisticsBalance` | src/stats.rs:49-110 | the submission, completion, rejection, steal and yield statistics balance in every state; failures are the steals that found nothing, successes the tasks stolen, each with those not yet counted |
| `Accounting.SleepingAccount` | src/worker.rs:338-429 | the sleeping count is the workers in their sleeping section, at most the worker count, and zero once all have left |
| `Theft.StealStatistics` | src/queue.rs:437-468 | in every state of a run attempts, failures and successes are the steals tried, those that found nothing and those that got a task, up to the ones not yet counted |
| `Theft.VictimsRotate` | src/steal.rs:80-120 | the k-th time in a run that a worker turns to its peers it goes round the ring from one past itself plus k |
| `Draining.ZeroMeansDrained` | src/worker.rs:119-132 | shutdown and a zero count leave nobody cleared to publish and nothing unfinished |
| `Draining.StopDecision` | src/worker.rs:119-132 | the two separate loads of the stop decision are together conclusive |
| `Draining.DrainedForever` | src/scheduler.rs:614-702 | a drained scheduler stays drained under every step, and nothing is published again |
| `Draining.DrainedExit` | src/worker.rs:278-280 | from the moment any worker has left, in every later state: queues empty, every published task run once and counted, nobody past the checks, no further publication |
| `Departure.CountOfDrained` | src/worker.rs:119-132 | in a drained state the in-flight count is the submissions that hold a slot they will give back, and zero when there is none |
| `Departure.StepDown` | src/worker.rs:247-429 | after shutdown every step of a worker brings it closer to leaving, except a selection, a retry or a count read as nonzero |
| `Departure.WorkersLeave` | src/worker.rs:224-431 | once the shutdown flag is set, a worker has left after (3n + 14) * (1 + b) steps of its own, b being its selections, retries and counts read as nonzero |
| `Departure.WorkersLeaveDrained` | src/worker.rs:224-431 | from a drained state on it selects nothing more and has left after (3n + 10) * (1 + b) steps of its own |
| `Departure.WorkersLeaveInPeace` | src/worker.rs:224-431 | while no submission holds a slot and no queue asks for a retry, 3n + 10 steps are enough |
| `Waiting.ZeroMeansDone` | src/group.rs:88-103 | a group count of zero means no registered submission and no unfinished task of the group |
| `Waiting.ClosedGroupStaysQuiet` | src/group.rs:39-69 | after a group is closed with count zero, no step of any run publishes a task of it |
| `Waiting.WaitMeansDone` | src/group.rs:88-103 | when either wait has returned, every submission accepted before it was called has run and is counted as completed |
| `Waiting.WaitDecision` | src/group.rs:94-103 | a wait that checks returns if and only if the count of its target is zero at that moment, and otherwise blocks and checks again |
| `Waiting.WaitEnds` | src/scheduler.rs:816-829 | a wait has returned after 2 * (1 + d) steps of its own, d being how often it read a count other than zero |
| `Waiting.WaitReturns` | src/group.rs:94-103 | while the count is zero two steps of its own are enough |
| `Waiting.QuietWait` | src/scheduler.rs:808-832 | when the scheduler wait reads its zero with no submission under way, submitted equals completed and nothing is outstanding |
| `Capacity.NeverOverCapacity` | src/scheduler.rs:413-447 | with a nonzero capacity the in-flight count never exceeds it, under any number of producers |
| `Capacity.RefusalSawFull` | src/scheduler.rs:419-427 | every `QueueFull` saw, while its call was under way, a moment with exactly `capacity` slots in use |
| `Capacity.ExactAcceptance` | src/scheduler.rs:399-448 | if no slot is given back and all calls have returned, exactly min(calls - stopped, capacity) were accepted, where stopped counts the calls that a shutdown turned away |
| `Admission.StoppedSawStop` | src/scheduler.rs:614-702 | every `Stopped` saw, while its call was under way, the shutdown flag set or its own group closed |
| `Admission.UnhinderedIsAccepted` | src/scheduler.rs:604-733 | a call that has returned and during which the flag was clear, its group open and the scheduler not full was accepted |
| `Admission.NobodyStopped` | src/scheduler.rs:614-702 | while the scheduler runs and no group is closed, no call is turned away |
| `Admission.ExactAcceptanceOpen` | src/scheduler.rs:399-448 | if besides nothing is given back and all calls have returned, exactly min(calls, capacity) were accepted |
| `Admission.InvokedAfterShutdown` | src/scheduler.rs:614-624 | a call invoked after shutdown answers `Stopped` with its first step, without a slot, a group entry or any change of the memory |
| `Admission.InvokedAfterClose` | src/group.rs:42-47 | a call for a group closed already is never counted in it, never touches its count and is not accepted |
| `Admission.PublicationIsChecked` | src/scheduler.rs:683-721 | just before it publishes, with slot and group entry held, a call reads the shutdown flag clear |
| `Admission.RegistrationIsChecked` | src/group.rs:49-68 | before that it raised the group's count and then found the group still open, with no step of its own in between |
| `Admission.PublishedWithFlagClear` | src/scheduler.rs:683-721 | so every published task had a moment with the flag clear and only that load between it and its publication |
| `Admission.CallsReturn` | src/scheduler.rs:604-733 | a call has returned after 12 steps of its own, not counting swaps that failed |
| `Admission.FailedSwapSawChange` | src/scheduler.rs:429-446 | a swap expects what the call saw at its own last step, so one that fails other than spuriously saw another thread change the count |
| `Searching.ExecTravel` | src/queue.rs:402-459 | tasks travel only from injector to the deque of the batching worker |
| `Searching.OthersKeepSearch` | src/queue.rs:242-352 | what a search has found empty stays empty of its snapshot under other threads' operations |
| `Searching.EmptyIsSound` | src/queue.rs:242-352 | if a search answers `Empty`, no task queued anywhere when it began is still queued, under any interleaving |
| `Sleeping.SleepsOnNothing` | src/worker.rs:338-422 | if a worker announces its sleep and is blocked later, no task queued when it announced is still queued |
| `Sleeping.BlocksAfterThreeSearches` | src/worker.rs:247-422 | a blocked worker has made two searches, announced its sleep and made a third, no others since, and each left nothing behind of what was queued when it began |
| `Sleeping.LookSeesSleeper` | src/worker.rs:152-163 | a submission that looks while a worker has announced its sleep and not retracted reads at least one and notifies |
| `Sleeping.LookDecides` | src/worker.rs:152-163 | a submission notifies if and only if the count of sleepers it looks at is not zero, and otherwise returns |
| `Sleeping.NoTaskUnannounced` | src/worker.rs:345-352 | if a worker is blocked while a task is queued, the task's call is yet to look or about to notify, or did both while the worker was in this same sleeping section |
| `Sleeping.NotifiedWhileBlocked` | src/worker.rs:411-422 | the notification comes after the worker has blocked if and only if the call had not returned when it blocked |
| `Sleeping.FallsAsleep` | src/worker.rs:247-422 | a worker that no queue gives a task or asks to try again has blocked or left within 9n + 32 steps of its own |
| `Ordering.BatchOrder` | src/queue.rs:402-426 | a batch lands behind what the deque had and ahead of what the injector keeps |
| `Ordering.OrderPreserved` | src/queue.rs:210-233 | each injector holds only its priority in publication order, each deque keeps it per priority, and deques precede injectors |
| `Ordering.SingleWorkerFifo` | src/queue.rs:295-320 | with one worker, HIGH selected, then HIGH in the deque, then the HIGH injector, is the HIGH publication order |
| `Fairness.StreakStep` | src/queue.rs:33-66 | the streak stays at most 32, is 32 throughout the fairness path and below 32 in every other probe |
| `Fairness.YieldsArePaid` | src/queue.rs:256-289 | per worker and summed, the HIGH tasks selected are exactly 32 per decided fairness yield plus the streak plus the streaks broken off by lower tasks; the bound with every yield counted holds if and only if the worker is outside the fairness path or has lost 32 to broken streaks |
| `Fairness.BurstExact` | src/queue.rs:242-352 | over any stretch of only HIGH selections their number is the growth of the streak plus 32 per dry detour, and reaches 33 if and only if that sum does |
| `Fairness.BurstLimit` | src/queue.rs:242-352 | while NORMAL (or LOW) is never empty no worker selects 33 HIGH tasks in a row, with retries and other threads in between |
| `Surroundings.OthersStep` | src/queue.rs:428-459 | another thread's step leaves a worker's variables alone and at most takes the front of its deque |
| `Inversion.BoundedInversion` | src/queue.rs:256-320 | a HIGH task with p ahead leaves its injector within k + p + floor((s + h + p) / 32) * (1 + B) + 1 selections of any worker, plus a surcharge of 1, 1 + B or 2 + B for one caught past the HIGH probe with somewhere still to look |
| `Residence.DequeResidence` | src/queue.rs:256-305 | a task at index k of a deque with h HIGH tasks ahead is gone within k + 1 + floor((s + h) / 32) selections by the owner, at most k + 2 + floor(k / 32) |
| `LowerProgress.NormalIsServed` | src/queue.rs:256-289 | whatever else arrives, a NORMAL task with p ahead leaves its injector within 33 * (p + L + 1) selections, less the streak, of a worker with L lower tasks in its deque; 1 more, without the streak, with peers still to try, and 33 * B + 1 more before LOW |
| `LowerProgress.LowIsServed` | src/queue.rs:256-289 | with NORMAL empty, a LOW task with p ahead leaves its injector within 33 * (p + L + 1) selections, less the streak, of a worker with L lower tasks in its deque, or 33 * (p + L + 1) + 1 of one with peers still to try |
| `Witnesses.YieldBoundFailsInDetour` | src/queue.rs:256-261 | a reachable state inside the fairness path in which the uncorrected yield bound fails |
| `Witnesses.BurstNeedsOneInjector` | src/queue.rs:263-281 | a run in which NORMAL or LOW has something at every moment and a worker still selects 33 HIGH tasks in a row |
| `Witnesses.InversionNeedsOne` | src/queue.rs:428-459 | for every B >= 1, a run that uses up the surcharge of 1 from every probe among the peers |
| `Witnesses.InversionNeedsBatch` | src/queue.rs:312-330 | for every B, a run that uses up the surcharge of 1 + B from the NORMAL and the LOW probe |
| `Witnesses.InversionNeedsBurst` | src/queue.rs:256-351 | for every B >= 1, a run that uses up the surcharge of 2 + B from every probe past the HIGH injector |
| `Witnesses.LowerNeedsOneMore` | src/queue.rs:428-459 | for NORMAL and for LOW, a run in which a worker with peers still to try makes 33 selections while the first task stays in its injector |
| `Scenarios.GroupTaskRuns` | src/group.rs:39-103 | a run in which a task of an open group is accepted, executed once, and waited for by its group |
| `Scenarios.NotifiedTooEarly` | src/worker.rs:353-422 | a run in which a worker blocks with a task queued whose notification was sent before |
| `SchedulerCode.Scheduler.constructor` | src/scheduler.rs:257-278 | an initial state; a worker count of zero becomes one |
| `SchedulerCode.Scheduler.ReserveTaskSlot` | src/scheduler.rs:399-448 | the reservation loop under interference ends reserved, refused as full, or still in the loop, and each swap expects the count seen last, below capacity |
| `SchedulerCode.Scheduler.TryOnce` | src/scheduler.rs:418-447 | one round of the loop: refused at capacity, or a swap that succeeds or tells the count it found |
| `SchedulerCode.Scheduler.AddTask` | src/group.rs:39-69 | joined means open, counted, still open; refused means closed, or closed once counted and undone: the operations with their answers |
| `SchedulerCode.Scheduler.PushGlobal` | src/scheduler.rs:709-721 | publication: one new record, queued and never run, whose place in the order becomes the task's number, and the task at the back of its injector |
| `SchedulerCode.Scheduler.Register` | src/scheduler.rs:638-733 | from the re-check on: the answer and the operations, with their answers, of the course taken, in source order |
| `SchedulerCode.Scheduler.Enrol` | src/scheduler.rs:651-733 | the same from the group on |
| `SchedulerCode.Scheduler.Join` | src/scheduler.rs:651-671 | registered, or the slot given back after the group refused |
| `SchedulerCode.Scheduler.Finish` | src/scheduler.rs:683-733 | the last check read clear and the publication, or read set and both roll-backs |
| `SchedulerCode.Scheduler.RollBack` | src/scheduler.rs:688-701 | gives back the slot first, then the group entry |
| `SchedulerCode.Scheduler.Announce` | src/scheduler.rs:717-732 | publish, count, look at the sleepers, notify if there are any, in that order, and its own task is on record |
| `SchedulerCode.Scheduler.WakeOne` | src/worker.rs:151-163 | the statistic, the load, and a notification exactly if it read something other than zero |
| `SchedulerCode.Scheduler.PushInternal` | src/scheduler.rs:604-733 | every answer is justified by the run: accepted means its own task was published with the flag read clear just before; full and stopped mean that it was full, or hindered, during the call, and nothing was published; stopped if shut down at the call; and the operations with their answers are those of one of seven courses |
| `SchedulerCode.Scheduler.Submission` | src/scheduler.rs:614-733 | the same for a call that has begun: turned away at the first check, or what follows it |
| `SchedulerCode.Scheduler.Proceed` | src/scheduler.rs:625-733 | the reservation and, if it succeeds, the rest |
| `SchedulerCode.Scheduler.WaiterTurn` | src/group.rs:94-103 | one check, which releases exactly if the count is zero at that moment, or the return from the condvar |
| `SchedulerCode.Scheduler.WaitLoop` | src/scheduler.rs:816-829 | the loop of check and condvar under interference ends released by a check that read zero, or about to check again after one that did not |
| `SchedulerCode.Scheduler.WaitFor` | src/scheduler.rs:808-832 | when it returns, a check read zero and every task of its target published before the call has run and is counted; when it does not, a check read something else; and while the count is zero it returns |
| `SchedulerCode.Scheduler.BeginShutdown` | src/worker.rs:135-148 | sets the flag and nothing else |
| `SchedulerCode.Scheduler.CreateGroup` | src/group.rs:29-36 | one more group, open and with count zero, and nothing else changed |
| `SchedulerCode.Scheduler.CloseGroup` | src/group.rs:106-115 | closes that group and changes nothing else |
| `WorkerCode.PriorityState.constructor` | src/queue.rs:27-31 | no streak |
| `WorkerCode.PriorityState.RecordTask` | src/queue.rs:52-66 | a HIGH task lengthens the streak, any other ends it |
| `WorkerCode.PriorityState.Reset` | src/queue.rs:39-43 | forgets the streak |
| `WorkerCode.WorkerThread.constructor` | src/worker.rs:229-245 | the worker's own state agrees with the transition system |
| `WorkerCode.WorkerThread.TryPriorityQueue` | src/queue.rs:368-400 | one injector: a task recorded, a retry, or nothing |
| `WorkerCode.WorkerThread.ProbeVictim` | src/queue.rs:446-468 | one victim: the attempt counted, the steal, then a success or a failure counted, or neither on a retry |
| `WorkerCode.WorkerThread.StealFromPeers` | src/queue.rs:428-472 | the loop over the victim list |
| `WorkerCode.WorkerThread.Detour` | src/queue.rs:256-289 | the fairness path: the yield counted, NORMAL, LOW, and with both empty the streak is zero |
| `WorkerCode.WorkerThread.GlobalThenPeers` | src/queue.rs:312-351 | HIGH, NORMAL, LOW, then the peers |
| `WorkerCode.WorkerThread.PopForWorker` | src/queue.rs:242-352 | a whole search, in step with the per-probe program; when it finds nothing, no task queued at the call is still queued |
| `WorkerCode.WorkerThread.Search` | src/queue.rs:256-351 | the fairness path if due, the own deque, then the rest |
| `WorkerCode.NothingIsSound` | src/queue.rs:242-352 | a task queued before an empty search began is not queued when it ends |
| `WorkerCode.WorkerThread.TaskCompleted` | src/worker.rs:86-110 | the statistic before the slot |
| `WorkerCode.WorkerThread.ExecuteTask` | src/worker.rs:181-211 | callback, statistic, slot, group, in that order |
| `WorkerCode.WorkerThread.ShouldStop` | src/worker.rs:119-132 | two loads, and where each answer leads |
| `WorkerCode.WorkerThread.Turn` | src/worker.rs:247-330 | one turn of the main loop up to the sleeping section |
| `WorkerCode.WorkerThread.Round` | src/worker.rs:247-330 | a search and what follows: run, start over, leave or go on |
| `WorkerCode.WorkerThread.Sleep` | src/worker.rs:338-429 | announce sleep and search once more; in every state in which it blocks no task queued at the call is still queued |
| `WorkerCode.WorkerThread.Resume` | src/worker.rs:362-395 | retract, then run the task or start over |
| `WorkerCode.WorkerThread.Doze` | src/worker.rs:400-429 | stop or block, and retract either way |
| `WorkerCode.WorkerThread.WorkerMain` | src/worker.rs:224-431 | when the worker leaves, nothing is queued and every published task has run once and is counted |

## Left out

- SchedulerCode.Scheduler.ReserveTaskSlot: the retry loop is unbounded in the source and may fail forever; the code form stops after a given number of swaps and says so, the transition system has no such bound.
- SchedulerCode.Scheduler.PushInternal: likewise answers `None` when the reservation loop was cut off.
- SchedulerCode.Scheduler.WaitLoop: likewise stops after a given number of checks.
- SchedulerCode.Scheduler.WaitFor: likewise stops after a given number of checks.
- WorkerCode.WorkerThread.WorkerMain: likewise stops after a given number of turns.
- Wake-up liveness: a notification wakes nobody in particular, a condvar wait may return at any time, and nothing is claimed about it returning; `WorkersLeave` and `WaitEnds` count a thread's own steps only. Of the notifications only the one of a submission is an operation of the model.
- `sleep_lock` and `wait_lock`: leaving them out admits more interleavings, so the results cover the locked code.
- LOW against NORMAL starvation and a global FIFO for NORMAL and LOW: the code does not provide them.
- `completed <= submitted` in every state, and consistency of a statistics snapshot: submissions are counted after publishing and a snapshot is seven separate loads; the balances are stated on states instead.
- Machine-word overflow of the counters and of the steal cursor.
- Weak memory orderings, the insides of crossbeam-deque and parking_lot, and `Arc` reference counting.
- Thread creation and its failure, joining, CPU pinning and topology detection (src/topology.rs).
- The C interface (src/ffi.rs, include/cortlet-upgradesched.h) and the entry points that only forward to `push_internal`.
- The `Adaptive` steal policy beyond its fallback to round robin.
