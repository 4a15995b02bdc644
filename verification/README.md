# LUTF: a model of a user-space preemptive task library, with proofs

LUTF runs many tasks on one kernel thread. A SIGALRM handler drives a five-level timer wheel and a round-robin
scheduler; tasks use re-entrant locks built on a binary semaphore, sleep on timers, and pass bytes through a
single-producer single-consumer queue. This project models that machinery and proves what it keeps.

## What is where

| files | content |
|---|---|
| `TimerWheel`, `TimerFiring`, `TimerRefinement`, `TimerConservation`, `TimerRuns`, `TimerTicks`, `TimerOrder`, `TimerMoves` (with `Arith`, `CellSums`) | the timer wheel on values: firing tick of every timer, refinement of an agenda, conservation, whole runs, tick and order of the callbacks, how often timers are moved; granularity is a parameter |
| `TimerList`, `TimerManager` | the same wheel as the source has it: circular intrusive lists and a manager object, each method proved equal to the function on values |
| `Kernel` | scheduler, locks, handler and sleep as a transition system over any number of tasks and locks |
| `KernelPlaces`, `KernelLocks`, `KernelSleep`, `KernelRuns`, `KernelSafety`, `KernelAlarm`, `KernelWaiting` | its invariant, what holds in every run, how long sleeping and waiting last |
| `KernelSteps`, `KernelSlices`, `KernelCounts`, `KernelCalls` | what a step changes; time slices, counted acquisitions, sleeping and blocking from the call on |
| `KernelTimers` | the timers of a run of the library are a run of the timer module |
| `KernelWakeUps`, `KernelPaused` | lost wake-ups: none while `sema_up` is not interrupted, and exactly which interruptions lose one |
| `KernelCheck`, `KernelWitness` | exactly when a signal inside `sema_up` or `sema_down` makes an assertion fail, and runs in which signals do harm |
| `Scheduler`, `Hook` | the scheduler's globals as an object changed in place, with the timer manager it drives, and the sleep calls |
| `Bitmap`, `Lifecycle` | bitmap, tids, lists of live and pooled tasks |
| `IoQueue` | the byte queue, sequentially and interleaved statement by statement |
| `SentinelList` | the doubly linked list with sentinels, on the heap |
| `Context`, `ContextRuns` | the two assembly routines, and tasks taking turns through them |

The wheel invariant: between ticks, at base J, a pending timer with expiry E is in the slot that E's bits select
at its level; on level l the start of E's block is at least J, and below level 5 the rest E - J is less than g
turns of the level. `FireAt` computes from this when the timer fires, and no cascade changes that.

## Assumptions

- `interrupt_disable` and `interrupt_enable` do not nest in the source, so `task_unblock` enables signals in the
  middle of `sema_up`, and a waiter that the handler resumes goes on in `sema_down` with signals enabled. A flag
  of the model says whether interrupts nest. If not, as in the source, a signal may come before and behind the
  increment of a `sema_up` that has woken a task, and between the test and the decrement in the later rounds of
  `sema_down`. Everything but `NoLostWakeUp` and `NestedMeetsAsserts` is proved for both.
- A task that fails the assertion at the end of `sema_up` spins for good (`lib/assert.c`), with signals enabled.
  Runs end where a task would decrement a semaphore whose token is gone (`TokenThereIff` says exactly when).
- The first round of `sema_down`, joining the waiters and blocking in any round, `task_block`, `task_unblock`,
  `task_start`, `task_exit` and the handler are atomic steps, as the comments of the source intend; between any
  other statements of `lock_acquire` and `lock_release` anything may happen, signals included.
- A dispatch has a ready task (otherwise the source loops forever), and releases match acquisitions. In the runs
  `task_exit` is called for the current task, which holds no lock, and `task_unblock` for one that
  `task_block` parked; what other calls do is proved beside them.
- The tid lock and the timer lock are free when taken inside an atomic step.
- Time does not wrap round 32 bits, the clock does not go back (a non-decreasing `now` is an input), and it never
  reads 2^32 - 1, where the loop of `run_timer` does not end (`CatchUpEnds`). A repeat count does not reach 2^32.
- Setting the sleep flag and the duration is one step. Timer callbacks other than the one that wakes a sleeper
  change neither wheel nor scheduler.
- A list head and a timer node are objects of one class, as the offset arithmetic of the source makes them; shifts
  and masks are written as division and remainder. Words accessed by the assembly routines are aligned, and
  blocks and stacks do not wrap round the address space.
- One byte behind a bitmap may be read, as `bitmap_scan` does; a map has less than 2^31 bits. A structure passed
  to `task_start` as new is not in use.
- The assertion at `src/task/task.c:213` is taken to mean that a pooled task is dead.

## Where code and documentation differ

- `create_timer` takes milliseconds, but the due time is divided by `clock_granularity` (10) before the level is
  chosen while slots are taken from whole milliseconds: timers can fire early, by at most 2304 ms. The bound, and exactly
  when a timer is exact, are proved for the code.
- `sleep` and `usleep` promise at least the requested time, as the C library's `nanosleep` does; the hooks do not keep
  the promise for requests that overflow, for fractions of a millisecond, nor when the granularity makes
  the timer fire early. Exactly when they do is proved.
- Locks promise that a released lock wakes its waiters; when a signal interrupts `sema_up` the wake-up can be lost.
  Exactly when it is lost is proved.
- The comments call `sema_down` and `sema_up` atomic; a signal inside them can make the assertion at the end of
  `sema_up` fail, or leave two tasks to take one token. Exactly when is proved.
- The tid map is sized for a million tids, while a tid is an `int16_t`: with 32767 live tasks the next tid
  is negative.

## Model

| member | source | states |
|---|---|---|
| `TimerRuns.FiringsWellTimed` | src/interrupt/timer.c:91-207 | In every run of creations, deletions and catch-ups, for every granularity g: a callback is made at a tick t with t <= uExpires, t congruent to uExpires modulo 256, and uExpires - t <= 256 (g - 1) |
| `TimerTicks.FiringsExact` | src/interrupt/timer.c:91-207 | In every run, for every granularity, the exact tick of every callback: the first of a timer is at the tick that creating it at its wheel base makes, each later one at the tick that re-arming it at the one before makes |
| `TimerTicks.TimedRun` | src/interrupt/timer.c:91-288 | The runs that record the wheel base of each creation are the runs of the timer module |
| `TimerOrder.FirstInOrder` | src/interrupt/timer.c:96-205 | Timers created at the same base for the same time make their first callbacks in the same tick, in the order of creation, in every run and for every granularity |
| `TimerOrder.TwinsInOrder` | src/interrupt/timer.c:96-205 | If their periods are the same too, so do their n-th callbacks, for every n |
| `TimerOrder.RunKeepsOrderInv` | src/interrupt/timer.c:91-288 | In every state of every run such timers, when both are live, are in one slot in that order |
| `TimerRuns.NoneMissed` | src/interrupt/timer.c:173-205 | In every run, for every g, no live timer's expiry is behind the wheel base |
| `TimerRuns.CatchUpEnds` | src/interrupt/timer.c:173-204 | The loop of run_timer ends if and only if the clock does not read 2^32 - 1; it then makes now + 1 - jiffies turns of a tick each, the 32-bit base counting them without wrapping, and what they make of the wheel is Run |
| `TimerRuns.TimersConserved` | src/interrupt/timer.c:144-205 | In every run each timer ever created is exactly one of: live (once), deleted (once), a one-shot that fired (once) |
| `TimerRuns.FiringsWithoutDrift` | src/interrupt/timer.c:197-201 | With g = 1, firing number q of a timer created to expire at E with period P is made at tick E + P q |
| `TimerRuns.FiresWhatExpires` | src/interrupt/timer.c:173-205 | With g = 1 a tick fires exactly the live timers whose expiry is that tick, each as often as it is live |
| `TimerRuns.PendingIsExpiry` | src/interrupt/timer.c:91-141 | With g = 1 the tick the wheel holds for a live timer is its own expiry |
| `TimerRuns.RunKeepsHistoryInv` | src/interrupt/timer.c:91-288 | Wheel invariant, conservation, schedule of every live timer and timing of every callback hold in every state of every run |
| `TimerRuns.AdvanceKeepsHistoryInv` | src/interrupt/timer.c:162-207 | A catch-up over any number of ticks keeps that invariant |
| `TimerRuns.NewTimerKeepsHistoryInv` | src/interrupt/timer.c:251-269 | So does create_timer |
| `TimerRuns.DropTimerKeepsHistoryInv` | src/interrupt/timer.c:272-288 | So does delete_timer of a live timer |
| `TimerRefinement.TickRefines` | src/interrupt/timer.c:173-205 | For every g the wheel refines an agenda of (timer, tick): one tick fires exactly the entries for that tick, and otherwise changes the agenda only by entering the periodic ones again; the wheel invariant is kept |
| `TimerRefinement.CascadesDues` | src/interrupt/timer.c:180-185 | The nested cascades of a tick, however many levels they reach, change no timer's firing tick |
| `TimerRefinement.CascadeDues` | src/interrupt/timer.c:144-160 | Nor does the cascade of a single level, although timers may go back to the slot being drained |
| `TimerRefinement.InsertKeepsInv` | src/interrupt/timer.c:91-141 | add_timer of a timer that is not overdue keeps the wheel invariant |
| `TimerRefinement.FiringExact` | src/interrupt/timer.c:186-203 | After the cascades the selected level-1 slot holds exactly the timers due at this tick |
| `TimerFiring.FireBounds` | src/interrupt/timer.c:91-160 | A timer anywhere in the wheel fires never late, early by a multiple of 256 ms, and by at most 256 (g - 1) |
| `TimerFiring.ArmedSits` | src/interrupt/timer.c:96-140 | add_timer's choice of level and slot satisfies the wheel invariant, for every expiry in 32 bits |
| `TimerFiring.LevelIsLowest` | src/interrupt/timer.c:96-117 | add_timer chooses the lowest level that g turns of reach as far as the timer |
| `TimerFiring.CreatedSharp` | src/interrupt/timer.c:96-140 | For every granularity, exactly which created timers fire on the requested millisecond |
| `TimerFiring.RearmedSharp` | src/interrupt/timer.c:197-201 | The same for a timer that is re-armed while its slot fires |
| `TimerFiring.ExactIffGranularityOne` | src/interrupt/timer.c:96-141 | All timers are exact if and only if the granularity is 1 |
| `TimerFiring.OneSecondFiresEarly` | src/interrupt/timer.c:12-103 | With the shipped granularity of 10 a timer for 1000 ms fires after 232 ms |
| `TimerFiring.OneTurnFiresAtOnce` | src/interrupt/timer.c:96-103 | With any granularity above 1 a timer for 256 ms goes into the slot being visited |
| `TimerMoves.CascadeLowersAll` | src/interrupt/timer.c:144-160 | With g = 1 a cascade leaves its slot empty and every timer that was in it on a strictly lower level |
| `TimerMoves.CascadeSpends` | src/interrupt/timer.c:144-160 | For every g a cascade uses up exactly one of the moves ahead of each timer it drains, and none of any other |
| `TimerMoves.CascadeTotal` | src/interrupt/timer.c:144-160 | So the total of moves ahead drops by the number of timers drained |
| `TimerMoves.TickSpends` | src/interrupt/timer.c:173-205 | A tick uses up one move for each time a timer is drained, and adds those of the timers armed again |
| `TimerMoves.FewMovesPerArming` | src/interrupt/timer.c:144-205 | In every run with g = 1 an arming, from create_timer or a firing on, is moved at most four times |
| `TimerMoves.MovesMadeAndAhead` | src/interrupt/timer.c:144-205 | In every run with g = 1 moves made and moves ahead of an arming are at most four together |
| `TimerMoves.CostedRun` | src/interrupt/timer.c:144-288 | The runs that count moves are the runs of the timer module |
| `TimerFiring.PutBack` | src/interrupt/timer.c:144-160 | With g >= 2 there are timers that a cascade puts back into the slot it is draining |
| `TimerConservation.CascadesBag` | src/interrupt/timer.c:180-185 | Cascading at any of the four upper levels neither loses nor duplicates a timer |
| `TimerConservation.TickBag` | src/interrupt/timer.c:173-205 | A tick removes from the live timers exactly the one-shots that fired |
| `TimerConservation.CreateBag` | src/interrupt/timer.c:251-269 | create_timer adds exactly one timer |
| `TimerConservation.DeleteBag` | src/interrupt/timer.c:272-288 | delete_timer removes exactly one |
| `TimerList.ListTimerInsert` | src/interrupt/timer.c:24-30 | Links a node between two neighbours, which may be the same object |
| `TimerList.ListTimerInsertHead` | src/interrupt/timer.c:32-35 | The cycle becomes the new node followed by the old cycle |
| `TimerList.ListTimerInsertTail` | src/interrupt/timer.c:37-40 | The cycle becomes the old cycle followed by the new node |
| `TimerList.ListTimerReplaceInit` | src/interrupt/timer.c:43-58 | The whole cycle moves to the new head and the old head is left alone, also when the cycle was empty and the writes alias |
| `TimerList.Unlink` | src/interrupt/timer.c:279-281 | Unlinking by the node alone removes exactly that node from its cycle, touching two links |
| `TimerManager.Manager.constructor` | src/interrupt/timer.c:61-69 | All slots empty |
| `TimerManager.Manager.AddTimer` | src/interrupt/timer.c:91-141 | The pointer structure changes as the value model's Insert |
| `TimerManager.Manager.SlotIndex` | src/interrupt/timer.c:96-139 | The chain of tests selects the slot of the value model |
| `TimerManager.Manager.CascadeTimer` | src/interrupt/timer.c:144-160 | Detaches the slot and re-inserts every node of it, in order; terminates although nodes may return to that slot |
| `TimerManager.Manager.CascadeAll` | src/interrupt/timer.c:180-185 | Short-circuit cascading of levels 2 to 5 is Cascades |
| `TimerManager.Manager.OneTick` | src/interrupt/timer.c:180-204 | One turn of the loop is Tick, and the callbacks made are Fired |
| `TimerManager.Manager.RunTimer` | src/interrupt/timer.c:162-207 | The catch-up loop is Run with log RunLog, and terminates for now < 2^32 - 1 |
| `TimerManager.Manager.CreateTimer` | src/interrupt/timer.c:251-269 | create_timer is Create, with a new node |
| `TimerManager.Manager.DeleteTimer` | src/interrupt/timer.c:272-288 | delete_timer removes the node from its slot and leaves the node sequences of all other slots as they are; -1 for NULL |
| `KernelSafety.MutualExclusion` | src/task/sync.c:27-92 | In every state of every run, also when signals interrupt sema_up and sema_down: semaphore value plus number of tasks between sema_down and sema_up is 1; holder, when set, names that task, and the repeat count is its depth, which KernelCounts counts from the calls made |
| `KernelCounts.CallsCounted` | src/task/sync.c:64-92 | In every run, for every task and lock: lock_acquire calls less lock_release calls since the task was started are its depth, a call under way counted as far as it has come |
| `KernelCounts.RepeatIsBalance` | src/task/sync.c:64-92 | A task outside these calls holds a lock, by token and by holder field, if and only if it has acquired it more often than released it, and the repeat count is the difference |
| `KernelCounts.HeldToLastRelease` | src/task/sync.c:64-92 | A lock acquired n times stays with its task, and with no other, until the n-th lock_release is called, whatever happens meanwhile |
| `KernelCounts.NeverWaitsForOwn` | src/task/sync.c:67-77 | No task waits for a lock it holds |
| `KernelCalls.WokenInOrder` | src/task/sync.c:27-61 | First come, first woken: over any part of any run, a lock's waiters followed by those who join are those sema_up wakes followed by those who still wait, in this order |
| `KernelCounts.CallsEnd` | src/task/sync.c:27-92 | Every call ends: from any point of it on at most a fixed number of statements is left, rounds that have to wait apart, and when they are executed the call is over |
| `KernelCounts.StuckMeansFailed` | src/task/sync.c:59 | Only the assertion at line 59 keeps a task from the end of its call |
| `KernelWakeUps.NoLostWakeUp` | src/task/sync.c:27-61 | If interrupts nest, so that sema_up is not interrupted: in every state of every run, if tasks wait, the token has an owner or a woken task that runs or is ready is about to retry |
| `KernelWakeUps.NothingLostIff` | src/task/sync.c:49-61 | As the source is, with task_unblock enabling signals: a run loses no wake-up if and only if no task ever gives the token back while tasks wait and nobody is on the way to fetch it |
| `KernelWakeUps.StepKeepsWakeUp` | src/task/sync.c:27-61 | Every step of any kind keeps a wake-up pending, except exactly that one |
| `KernelPaused.InterruptedUpLosesWakeUp` | src/task/sync.c:49-61 | For any ready list, any waiters and any steps in between: an interrupted sema_up loses the wake-up if and only if every task on the way to the lock, the woken one included, retries before the token is given back |
| `KernelPaused.SignalLosesWakeUp` | src/task/sync.c:49-61 | For any ready list and any waiters, with nobody on the way before: a signal right after task_unblock, followed by a statement, loses the wake-up if and only if the releasing task's time slice has ended, whatever happens until it gives the token back |
| `KernelWitness.AWakeUpIsLost` | src/task/sync.c:49-61 | There is a run from the initial state, for every granularity, in which that happens |
| `KernelCheck.CheckHoldsIff` | src/task/sync.c:49-61 | As the source is: a task that has given the token back comes to the assertion at line 59, and it holds if and only if nobody has taken the token meanwhile without giving it back; a task that fails it stays there |
| `KernelCheck.SignalFailsCheck` | src/task/sync.c:49-61 | With a signal right before the assertion, it fails if and only if the time slice of the releasing task has ended |
| `KernelCheck.TokenThereIff` | src/task/sync.c:31-43 | As the source is: a task that has passed the test in a later round of sema_down finds the token, and meets the assertion at line 43, if and only if nobody has taken it meanwhile without giving it back |
| `KernelCheck.NestedMeetsAsserts` | src/task/sync.c:27-61 | If interrupts nest, every assertion, that at line 59 included, holds at every step of every run, and no task ever stands between those statements |
| `KernelCheck.StepOwners` | src/task/sync.c:27-61 | A step of any kind makes the current task the only one with the token if it takes it, leaves none if it gives it back, and otherwise leaves the set of such tasks as it is |
| `KernelWitness.ACheckFails` | src/task/sync.c:49-61 | There is a run from the initial state, for every granularity, in which a signal makes the assertion at line 59 fail and the task stay there |
| `KernelWitness.ATokenIsGone` | src/task/sync.c:31-43 | There is one in which a task has passed the test of sema_down and the token is gone when it comes to take it |
| `KernelSafety.RunKeepsInv` | src/task/sync.c:27-92 | The whole invariant holds in every state of every run, and every assertion of sync.c, task_block, task_unblock, task_start, schedule and collaborative_schedule_helper holds at every step, except the one at line 59 where a signal may come before it (CheckHoldsIff) |
| `KernelSafety.NeverStuck` | src/task/task.c:204-459 | No step the callers may take is undefined: no popped list is empty, no task unknown |
| `KernelSafety.Placement` | src/task/task.c:204-459 | In every state of every run each live task is in exactly one place (current, ready, waiting for one lock, parked, asleep), on no list twice; READY is exactly the ready list, RUNNING exactly current and the sleepers; ticks <= priority |
| `KernelSafety.SleepersHaveTimers` | src/interrupt/timer.c:294-333 | In every state of every run sleeping tasks and pending wake-up timers correspond one to one, and those timers are one-shots |
| `KernelSlices.SliceLasts` | src/interrupt/timer.c:324-327 | Over runs: a task that does not block, end or sleep keeps the processor for as many handler runs as it has ticks, one tick each |
| `KernelSlices.SliceIsExact` | src/task/task.c:366-393 | Over runs: the handler run after the last of its ticks, and no earlier one, puts it behind all ready and just woken tasks, with ticks equal to its priority, and the first of them runs |
| `KernelSlices.WokenIsFresh` | src/interrupt/timer.c:294-304 | A task woken by its timer is ready, or runs already, with ticks equal to its priority, its flag cleared and its duration 0 |
| `KernelSlices.StartedPriority` | src/task/task.c:170 | A task started with priority p has priority p, taken modulo 256, in every later state until it ends |
| `KernelSlices.FirstSlice` | src/task/task.c:146-236 | Until it first runs a started task is unchanged and ready; then it has ticks equal to its priority, is outside all calls, and holds no lock |
| `KernelSlices.PriorityLasts` | src/task/task.c:204-459 | No step changes a priority |
| `KernelSteps.StepOthers` | src/task/task.c:204-459 | Any step: a task that is not current keeps all its fields but for its status becoming READY or RUNNING, unless its timer wakes it |
| `KernelSteps.StepMine` | src/task/task.c:204-459 | Any step: which fields of the current task change, and to what |
| `KernelSteps.StepQueue` | src/task/task.c:204-459 | Any step: who is current afterwards, and the ready list in order |
| `KernelSteps.StepTasks` | src/task/task.c:94-236 | Tasks come and go with task_start and task_exit only |
| `KernelSteps.StepWaiters` | src/task/sync.c:27-61 | Any step: tasks join the waiters of a lock at the end and leave them at the front |
| `KernelCalls.BlockLasts` | src/task/task.c:274-281 | A task that blocks itself with a status keeps it, and everything else, until task_unblock is called for it, over any steps of the others |
| `KernelCalls.UnblockIsNext` | src/task/task.c:286-298 | Then it is the first of the ready list, and otherwise as it was |
| `KernelAlarm.SleepLasts` | src/interrupt/timer.c:294-333 | A sleep from beginning to end: armed for at most base + ms (exactly that with g = 1), the task sleeps until the first handler run at or after its tick, which makes it ready |
| `KernelAlarm.SleepArms` | src/interrupt/timer.c:329-331 | The handler run that finds a task in a sleep call arms its timer, never late and early by whole turns only |
| `KernelAlarm.StepAlarm` | src/interrupt/timer.c:162-333 | Every step of any kind keeps a pending wake-up pending, except the handler run that reaches its tick, which wakes the sleeper |
| `KernelAlarm.RunWakesExactly` | src/interrupt/timer.c:162-207 | A catch-up wakes a sleeper if and only if it reaches the tick its wake-up is pending for, and otherwise leaves it pending |
| `KernelAlarm.SleepKeepsPromise` | src/hook.c:217-232 | sleep(s) lasts at least s seconds of wheel time if and only if s <= 4294967 and the timer is exact; otherwise the first handler run from an earlier tick on wakes the task |
| `KernelAlarm.UsleepKeepsPromise` | src/hook.c:251-265 | usleep(us) lasts at least that long if and only if us is in whole milliseconds and the timer is exact; otherwise the task is woken from an earlier tick on |
| `KernelAlarm.NanosleepKeepsPromise` | src/hook.c:234-247 | nanosleep lasts at least the time requested if and only if that is in whole milliseconds, fits 32 bits, and the timer is exact; otherwise the task is woken from an earlier tick on |
| `KernelCalls.SleepFromCall` | src/interrupt/timer.c:309-333 | A sleep from its call: the step after it is a handler run, which finds the request as it was made, and the task sleeps exactly to the tick at which a timer of that length, created at that base, fires |
| `KernelCalls.UsleepIsNear` | src/hook.c:251-265 | With an exact timer a usleep ends less than a millisecond of wheel time short of the request, and not after it |
| `KernelCalls.NanosleepIsNear` | src/hook.c:234-247 | So does a nanosleep whose request fits 32 bits |
| `KernelTimers.RunOfTimers` | src/interrupt/timer.c:162-333 | The timers of every run of the library form a run of the timer module: those its tasks create and delete, a catch-up for each handler run, and a one-shot of the requested length for each sleeper; so all results on such runs hold of it |
| `KernelWaiting.BoundedWaiting` | src/interrupt/timer.c:324-328 | While a ready task has not run, handler runs plus its remaining wait are bounded by the time slices (plus one each) of current and of the tasks ahead, plus those of tasks put in front by task_unblock |
| `KernelWaiting.StepWait` | src/task/task.c:274-375 | One step: the wait shrinks by one per handler run and grows only by priority + 1 per front insertion |
| `KernelRuns.StepKeepsInv` | src/task/task.c:204-459 | Each step of the transition system is defined, meets the source's assertions (but for sync.c 59 where a signal may come before it) and keeps the invariant |
| `KernelRuns.HandlerKeepsInv` | src/interrupt/timer.c:309-333 | So does the signal handler |
| `KernelRuns.StatementKeepsInv` | src/task/sync.c:64-92 | So does every statement of lock_acquire and lock_release |
| `KernelRuns.StatementMeetsAsserts` | src/task/sync.c:27-92 | The assertions at sync.c 32, 43, 53, 72, 82 and 87 and task.c 290 and 292 hold when their statements execute, and that at sync.c 59 where no signal can come before it |
| `KernelRuns.HandlerAsserts` | src/interrupt/timer.c:298 | No task woken by a timer is on the ready list already, nor is the preempted task (task.c 370) |
| `KernelRuns.ExitKeepsInv` | src/task/task.c:94-127 | task_exit keeps the invariant if and only if the task that ends is the current one and has no acquisition left to release |
| `KernelRuns.StartKeepsInv` | src/task/task.c:204-236 | task_start keeps the invariant |
| `KernelRuns.ParkKeepsInv` | src/task/task.c:274-281 | task_block keeps the invariant |
| `KernelRuns.UnblockKeepsInv` | src/task/task.c:286-298 | task_unblock of a halted task keeps the invariant if and only if task_block parked it, not sema_down; it was not on the ready list |
| `KernelRuns.SleepKeepsInv` | src/interrupt/timer.c:329-332 | Putting the current task to sleep keeps the invariant |
| `KernelRuns.ScheduleKeepsInv` | src/task/task.c:366-393 | Preemption keeps the invariant |
| `KernelLocks.StatementKeepsLocks` | src/task/sync.c:64-92 | A statement by the owner or by a task on its way in keeps the owner, on this lock and all others |
| `KernelLocks.DownKeepsLocks` | src/task/sync.c:40-43 | Taking the token makes the current task the one owner |
| `KernelLocks.WaitKeepsLocks` | src/task/sync.c:31-40 | Joining the waiters keeps the locks' invariant |
| `KernelLocks.UpKeepsLocks` | src/task/sync.c:49-61 | sema_up, interrupted or not, keeps one owner or none for every lock |
| `KernelSleep.TimersKeep` | src/interrupt/timer.c:162-304 | run_timer with its callbacks keeps places, sleepers and wheel, and appends the woken tasks to the ready list |
| `KernelSleep.RunWakes` | src/interrupt/timer.c:162-207 | Catching up turns pending wake-ups into woken tasks, one for one |
| `Kernel.RemovedAt` | src/lib/list.c:40-48 | list_remove on a list of tasks: exactly the first occurrence is gone |
| `SchedulerState.Scheduler.constructor` | src/task/task.c:314-322 | The initial state: the main task runs, all locks are free, no timer is armed |
| `SchedulerState.Scheduler.Schedule` | src/task/task.c:366-393 | The new state is the model's Schedule |
| `SchedulerState.Scheduler.GetNextTask` | src/task/task.c:328-333 | Pops the first ready task and marks it RUNNING |
| `SchedulerState.Scheduler.SwitchToNext` | src/task/task.c:399-459 | The dispatch common to the other three schedule functions |
| `SchedulerState.Scheduler.TaskBlock` | src/task/task.c:274-281 | task_block is the model's transition and keeps the invariant |
| `SchedulerState.Scheduler.TaskUnblock` | src/task/task.c:286-298 | task_unblock of a halted task is the model's transition, and keeps the invariant if and only if task_block parked it |
| `SchedulerState.Scheduler.TaskStart` | src/task/task.c:204-236 | task_start, likewise |
| `SchedulerState.Scheduler.RemoveFromReady` | src/task/task.c:102-104 | elem_find and list_remove on the ready list remove the first occurrence |
| `SchedulerState.Scheduler.TaskExit` | src/task/task.c:94-127 | task_exit of any task is the model's transition, and keeps the invariant if and only if that task is the current one and has no acquisition left to release |
| `SchedulerState.Scheduler.SemaDown` | src/task/sync.c:27-46 | One round of the loop of sema_down is the model's transition: it blocks, or finds the token, and takes it unless a signal may come first |
| `SchedulerState.Scheduler.TakeToken` | src/task/sync.c:42 | The decrement in sema_down is the model's transition |
| `SchedulerState.Scheduler.WakeFirst` | src/task/sync.c:54-57 | The first half of sema_up |
| `SchedulerState.Scheduler.SemaUp` | src/task/sync.c:49-61 | sema_up, up to the point where signals are enabled again, is the model's transition |
| `SchedulerState.Scheduler.GiveToken` | src/task/sync.c:58 | The increment in sema_up is the model's transition |
| `SchedulerState.Scheduler.CheckToken` | src/task/sync.c:59-60 | The assertion behind it: the task returns if the value is 1, and otherwise stays there |
| `SchedulerState.Scheduler.LockStep` | src/task/sync.c:27-92 | Each statement of lock_acquire and lock_release, and of sema_down and sema_up in them, is the model's transition and keeps the invariant |
| `SchedulerState.Scheduler.WakeUp` | src/interrupt/timer.c:294-304 | collaborative_schedule_helper is the model's WakeUp |
| `SchedulerState.Scheduler.RunTimer` | src/interrupt/timer.c:162-207 | run_timer on the linked lists of the timer manager, with its callbacks one after the other, is the model's AfterTimers |
| `SchedulerState.Scheduler.TickCurrent` | src/interrupt/timer.c:324-332 | The handler's three branches are the model's AfterTick; a sleeper's timer is linked into the manager |
| `SchedulerState.Scheduler.InterruptTimerHandler` | src/interrupt/timer.c:309-333 | The handler, on the linked lists of the timer manager, is the model's TimerHandler and keeps the invariant |
| `SchedulerState.Scheduler.SleepSeconds` | src/hook.c:217-232 | sleep sets flag and duration and keeps the invariant |
| `SchedulerState.Scheduler.SleepNanoseconds` | src/hook.c:234-247 | nanosleep, likewise |
| `SchedulerState.Scheduler.SleepMicroseconds` | src/hook.c:251-265 | usleep, likewise |
| `Hook.SleepIsFull` | src/hook.c:224 | sleep asks for its full time if and only if it is at most 4294967 seconds |
| `Hook.SleepAsks` | src/hook.c:224 | sleep asks for the request in milliseconds modulo 2^32, whatever the request |
| `Hook.NanosleepAsks` | src/hook.c:240-241 | nanosleep asks for the request rounded down to milliseconds, modulo 2^32, whatever the request |
| `Hook.SleepWraps` | src/hook.c:224-230 | A sleep of 4294968 seconds asks for 704 ms, against the comment that promises at least the requested time |
| `Hook.UsleepIsFull` | src/hook.c:257 | usleep asks for the request rounded down to milliseconds: less than a millisecond short of it, never more, and all of it exactly for whole milliseconds |
| `Hook.NanosleepIsFull` | src/hook.c:240-241 | nanosleep never asks for more than requested, and for all of it exactly for whole milliseconds that fit 32 bits |
| `Hook.SleepPromise` | src/hook.c:217-232 | A sleep armed at base j fires no earlier than j + 1000 s if and only if s <= 4294967 and its timer is exact |
| `Hook.UsleepPromise` | src/hook.c:251-265 | A usleep armed at base j fires no earlier than j + us if and only if us is in whole milliseconds and its timer is exact |
| `Hook.NanosleepPromise` | src/hook.c:234-247 | A nanosleep armed at base j fires no earlier than requested if and only if the request is in whole milliseconds that fit 32 bits and its timer is exact |
| `Bitmap.BitMap.Scan` | src/lib/bitmap.c:36-78 | cnt 1: the lowest clear bit, -1 if there is none; cnt >= 2: the first run of cnt clear bits in the map followed by one more bit, -1 if there is none; cnt 0: one past the first set bit that follows a clear one |
| `Bitmap.BitMap.ScanRun` | src/lib/bitmap.c:59-77 | The counting loop finds that first run |
| `Bitmap.SentinelNeeded` | src/lib/bitmap.c:59-77 | For cnt >= 2 the answer is right for the map itself exactly if the bit after it is set, or the map has a run, or it does not end in cnt - 1 clear bits |
| `Bitmap.FirstRunUnique` | src/lib/bitmap.c:36-78 | The contract of the scan leaves one answer only |
| `Bitmap.LowestClearBound` | src/lib/bitmap.c:38-58 | The lowest clear bit is at most the number of set bits |
| `Bitmap.BitMap.Set` | src/lib/bitmap.c:86-99 | Changes the one bit asked for |
| `Bitmap.BitMap.ScanTest` | src/lib/bitmap.c:24-29 | Reads the one bit asked for |
| `Bitmap.BitMap.Init` | src/lib/bitmap.c:13-17 | Clears every bit of the map |
| `Lifecycle.TidPool.Allocate` | src/task/task.c:69-76 | With fewer than 32767 tids in use the tid is positive, was free, and its bit is now the only one changed |
| `Lifecycle.TidPool.Release` | src/task/task.c:82-88 | Clears exactly the bit of that tid |
| `Lifecycle.TidRoundTrip` | src/task/task.c:69-88 | A tid is bit index plus one, and its release clears the bit allocated, if and only if the index is below 32767 |
| `Lifecycle.NextTid` | src/task/task.c:69-88 | The next tid is positive, and its release would clear its own bit, if and only if fewer than 32767 tasks live; with 32767 it is -32768 and its release addresses a bit beyond the map |
| `Lifecycle.FullTable` | src/task/task.c:17-18 | There are tables with 32767 live tasks, with lists, count and tids in order |
| `Lifecycle.TaskTable.NextTidIs` | src/task/task.c:17-18 | The same of any reachable table of tasks, by its task count; the map has room for a million |
| `Lifecycle.TaskTable.constructor` | src/task/task.c:241-253 | The main task alone, with tid 1 |
| `Lifecycle.TaskTable.Start` | src/task/task.c:204-236 | Reuses a dead pooled structure or takes a new one; the task is not on the list before, its tid differs from all live ones, and the invariant of lists, count and tids is kept |
| `Lifecycle.TaskTable.Exit` | src/task/task.c:94-127 | The task leaves the list, joins the pool unless it is main, its tid is free again, and the invariant is kept |
| `Lifecycle.TaskTable.Find` | src/task/task.c:259-268 | The one live task with that tid if its bit is set, nothing otherwise |
| `Lifecycle.OwnerBit` | src/task/task.c:146-177 | The set bits of the tid map are exactly the tids of the live tasks |
| `IoQueue.RefinesFifo` | src/device/ioqueue.c:54-109 | Whatever the interleaving of one producer and one consumer: delivered bytes are a prefix of the bytes put, at most 63 are in flight, ioq_length counts them, and the buffer holds them in order |
| `IoQueue.UnreadKept` | src/device/ioqueue.c:90 | No step overwrites an unread byte |
| `IoQueue.PutEnds` | src/device/ioqueue.c:85-91 | From a queue with at most 62 bytes, whatever the consumer does meanwhile, ioq_putchar puts exactly its byte in, with its third statement |
| `IoQueue.GetEnds` | src/device/ioqueue.c:62-68 | From a queue that is not empty, whatever the producer does meanwhile, ioq_getchar delivers the oldest unread byte, with its third statement |
| `IoQueue.PutTakes` | src/device/ioqueue.c:85-91 | From any queue: test, store and advance follow each other, tests that find 63 bytes apart |
| `IoQueue.GetTakes` | src/device/ioqueue.c:62-68 | The same of ioq_getchar, tests that find no byte apart |
| `IoQueue.WaitsInPlace` | src/device/ioqueue.c:62-85 | A test that finds 63 bytes, or none, leaves everything as it is |
| `IoQueue.Queue.PutChar` | src/device/ioqueue.c:90-91 | Appends the byte to the contents |
| `IoQueue.Queue.GetChar` | src/device/ioqueue.c:67-68 | Removes and returns the first byte of the contents |
| `IoQueue.Queue.Measure` | src/device/ioqueue.c:24-35 | ioq_full, ioq_empty and ioq_length agree with the contents |
| `IoQueue.LengthIs` | src/device/ioqueue.c:99-108 | ioq_length is bytes put minus bytes delivered; full means 63 |
| `IoQueue.UnreadPut` | src/device/ioqueue.c:90-91 | Storing at head and advancing appends to the unread bytes |
| `SentinelList.List.constructor` | src/lib/list.c:6-12 | An empty list |
| `SentinelList.List.InsertBefore` | src/lib/list.c:15-25 | The new element is in front of the given one and nothing else changes |
| `SentinelList.List.Push` | src/lib/list.c:28-31 | The new element is first |
| `SentinelList.List.Append` | src/lib/list.c:34-37 | The new element is last |
| `SentinelList.List.Remove` | src/lib/list.c:40-48 | Exactly the given element is gone |
| `SentinelList.List.Pop` | src/lib/list.c:51-56 | The first element of a list that is not empty is returned and gone |
| `SentinelList.List.Find` | src/lib/list.c:59-69 | True exactly for the elements of the list |
| `SentinelList.List.Traverse` | src/lib/list.c:72-87 | The first element that satisfies the callback, NULL if none does |
| `SentinelList.List.Len` | src/lib/list.c:90-99 | The number of elements |
| `SentinelList.List.IsEmpty` | src/lib/list.c:102-105 | True exactly for the empty list |
| `SentinelList.MoveFirst` | src/task/sync.c:54-57 | Moving the first waiter to the front of the ready list keeps both lists well linked and disjoint |
| `SentinelList.PopBeside` | src/lib/list.c:51-56 | Popping from one list leaves a disjoint list alone |
| `SentinelList.PushBeside` | src/lib/list.c:28-31 | Pushing on one list leaves a disjoint list alone |
| `Context.ContextSwap` | src/task/context_swap.asm:8-54 | The instructions save the caller as it will be after the call returns, continue with the registers of the other block, and push its return address |
| `Context.ContextSet` | src/task/died_context_swap.asm:7-30 | The instructions continue with the registers of the block and push its return address |
| `Context.SaveThenLoad` | src/task/context_swap.asm:8-51 | What is saved in a block is what is loaded from it, register by register |
| `ContextRuns.SwapReturns` | src/task/context_swap.asm:8-54 | In every run, a call of context_swap looks to its caller like a plain return: every register as before (rcx included), stack pointer past the return address, execution there, no word of the stack changed |
| `ContextRuns.ResumeIsExact` | src/task/context_swap.asm:30-54 | A resumed task finds the registers it was suspended with; if it called context_swap itself, no memory outside the block of the task it replaces is changed |
| `ContextRuns.PushBelowStack` | src/task/context_swap.asm:48-49 | Resuming a preempted or new task overwrites the word below its stack pointer, and leaves its stack unchanged exactly if that word is its program counter already |
| `ContextRuns.RunKeepsInv` | src/task/task.c:442-459 | In every state of every run each suspended task's block holds its registers, and below its stack pointer its return address if it called context_swap |
| `ContextRuns.WhileSuspended` | src/task/task.c:422-459 | While a task does not run, its saved registers and its stack stay as they are |
| `ContextRuns.SwitchIsDefined` | src/task/context_swap.asm:8-54 | Every switch between suspended tasks meets the requirements of the routines |

## Left out

- `clean_dead_task`: its loop condition is inverted; the periodic cleaner is an opaque timer callback.
- `destroy_timer_manager` and `delete_array_list_timer`: freeing all timers at the end.
- The branches at `src/interrupt/timer.c:119-136` that no 32-bit due time reaches (a `uint32_t` is never negative as a 64-bit `long`, nor above 0xffffffff).
- Deleting a timer from a callback, deleting one that has fired, and creating one with due time 0 from a callback; callbacks do not touch the wheel.
- The order of timers created at different bases for one expiry, and the order in which tasks get a lock: waiters are woken in the order in which they came, but another task may take the token first.
- `get_next_task_011`: never called.
- Waiting and waking in the byte queue: the test is not repeated after the lock is taken, and the waiter sleeps holding the lock, so only the flow of data is modelled; `ioq_length` is read in one step.
- A signal that comes between joining the waiters and blocking, in a later round of `sema_down`.
- SchedulerState.Scheduler.SemaDown: states one round of the loop of `sema_down`, because a task that blocks is switched out in the middle of it; the rounds are joined by the runs of the transition system.
- SchedulerState.Scheduler.Schedule: the ready list and the waiters are sequences in this class; `SentinelList` has the list operations with pointers, and one of their combinations.
- SchedulerState.Scheduler.SwitchToNext: the copying of contexts is in `ContextRuns`, not here.
- Bitmap.BitMap.Scan: a full map, where the source fails an assertion, yields -1.
- Signal delivery and masks, `setitimer`, `clock_gettime`, stack sizes, `malloc` failure, flags and floating-point registers.
- The counters of elapsed and total ticks, task names, stack magic.
- The hooks other than the sleep calls, `is_hook` and the calls it passes on to the C library, console and printing.
