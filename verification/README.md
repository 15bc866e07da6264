# SuperTinyKernel, SEGGER RTT and SystemView: a verified model

This project models four parts of the SuperTinyKernel repository and proves what they promise, for every input,
every run and every interleaving.

**The kernel** (`stk/include/stk.h`) is a state machine over a fixed pool of task slots. Each slot has a signed
sleep counter, six pending flags, a wait object, hard-real-time data, weights and a time slice. Ticks, forced
switches, calls of the running task and calls of interrupt handlers drive it; flags set by one of them are consumed
by another, and the scheduling strategy keeps its own set of runnable tasks that has to agree all the time.

- `KernelTypes`, `KernelSpec`: the state as a value and every entry point as a function. The strategy is a *ledger*
  (managed tasks, runnable tasks with the weight they are filed under, waiting tasks) together with the history of
  all calls made to it; `Replay` checks that history against the strategy contract. What the strategy answers is a
  parameter (`Choice`) that has to obey the contract.
- `KernelInv`, `KernelSync`, `KernelRuns`, `KernelCalls`: the invariant, the events with the conditions under which
  they may occur, and the proof that each event keeps the invariant.
- `KernelTheorems`, `KernelSched`, `KernelFrame`, `KernelTick`, `KernelTickless`, `KernelTiming`, `KernelWaits`,
  `KernelExit`, `KernelHrt`, `KernelBounce`, `KernelSlices`, `KernelMisses`: the theorems over runs.
- `KernelEntry`, `KernelImpl` (`Kernel.dfy`): the kernel as an object with an array of slots that its methods update in
  place. Each method computes the function on values, and each entry point keeps the invariant and carries what its
  caller relies on.

**The fixed-priority strategy** (`Rotation`, `FixedPriority`, `FixedPriorityImpl`, `PriorityKernel`, `Starvation`): circular lists
with cursors, proved to meet the contract of the ledger and, together with the kernel, to give the CPU to a task of the
highest effective weight; how long a task of the serving level waits, and when it waits for ever.

**The RTT ring** (`RttRing`, `RttConcurrent`, `RttTerminal`): the ring as an object over a byte array, its writers and
readers as refinements of one FIFO sequence, every interleaving of a writer and a reader at the granularity of single
loads, byte copies and offset stores, and the terminal multiplexing with the host's view of it.

**The SystemView stream** (`Sysview`, `Recorder`): number encoding (unsigned LEB128, section 7.6 of DWARF Version 5),
packet layout built in place, and the recorder that drops packets and reports the drops.

**The tick counter** (`TickCounter`): a 64-bit value in two 32-bit words, written high half first and read with retry.

## Where the code and its documentation differ

The model follows the code. The differences are theorems:

- `SEGGER_RTT_GetBytesInBuffer` is right only for data that does not wrap, or in one odd case
  (`RttRing.Ring.GetBytesInBuffer`).
- An overwriting RTT write keeps the newest data exactly up to the rest of the buffer plus one round; a longer one
  leaves an old byte behind, because later rounds skip the last position (`RttRing.OverwriteExact`).
- `ReadVolatile64` does not notice two loads that both fall between the two stores of one carrying write; the
  comment says that equal high halves exclude every straddling write (`TickCounter.ReadExact`, `TickCounter.TornExample`).
- `CancelTaskWait` does not look at a pending removal, so cancelling an exiting task keeps it alive
  (`KernelExit.CancelledExitSurvives`, and the exact condition in `KernelExit.ExitsWithinTwoTicks`).
- In hard-real-time mode a tick can wake a completed job, and a task that sleeps then stays in the runnable set. The
  completed job, also that of an exiting task, is woken from outside before it is taken off; or a wake from before the
  start is still pending when the job completes, because `OnStart` clears the pending sleep only
  (`KernelBounce.BounceBreaksAgreement`, `KernelBounce.EarlyCancelBreaksAgreement`). `KernelBounce.BounceExact` says
  exactly which ticks do it and `KernelBounce.CallExact` which calls lead to one; runs exclude exactly those ticks and
  no call.
- A lock scope inside which the kernel is suspended does not restore the state it found
  (`KernelSched.ScopeRestoresExactly`, `KernelSched.SuspendedScopeIsNotRestored`).
- `SleepUntil` with a timestamp that is too far away sleeps forever (`KernelTiming.FarSleepNeverEnds`).
- `OnTaskWeightChange` is documented as a no-operation when old and new priority are the same, but it relinks the task,
  and every unlock of a mutex calls it (`stk/include/sync/stk_sync_mutex.h:276`, `stk/include/stk.h:2900`). The rotation
  within a level is therefore not fair: a task that unlocks once between selections can be selected for ever
  (`Starvation.UnlockingStarves`, `Starvation.StarvingIsReached`; exactly when the change is harmless:
  `Rotation.RelinkUnchangedExactly`, `Rotation.RelinkOvertakes`).
- A task woken while the cursor of its level is on the tail of the list overtakes the whole level, although the
  comment says that it waits for its turn; an added task does not (`Rotation.LinkPosition`).
- `ISyncObject::Tick` reports that it wants more ticks whenever its list is not empty, also when all waiters wait
  without a limit; `OnStart` leaves a pending wake in place; `OnRestoreWeight` compares the waiters with the boosted
  weight that it is about to drop. The functions in `KernelSpec` do the same.

## Model

| member | source | states |
|---|---|---|
| `KernelCalls.NextKeeps` | stk/include/stk.h:1421-2900 | every event that may occur keeps the invariant: flags, sleep counters, wait lists, weights, slices, both state machines, the strategy's sets and the legality of the whole history of strategy calls; in HRT mode only waits, and ticks that find a completed job with a pending wake, are left out |
| `KernelTheorems.RunsKeep` | stk/include/stk.h:2336-2520 | every state that any run reaches from a new kernel satisfies the invariant |
| `KernelTheorems.RunnableAgreement` | stk/include/stk.h:2915-3087 | in every reachable state a bound task is in the strategy's runnable set exactly when it is awake or its sleep is still pending, filed under its effective weight; after the start only the current task can have a pending sleep; the history of calls obeys the strategy contract |
| `KernelTheorems.SleepWakeAlternate` | stk/include/stk_common.h:1402-1520 | in every run OnTaskSleep and OnTaskWake alternate strictly for each task, and the last of them tells whether the task is runnable now |
| `KernelTheorems.WaitsEndOnce` | stk/include/stk.h:572-682 | in every run each wait ends exactly once, by signal, timeout or cancellation, and one that was begun and not ended is under way |
| `KernelTheorems.WaitersAreLinked` | stk/include/stk.h:572-682 | in every reachable state a task is in the list of a sync object exactly while it waits on it, once, sleeping without limit, and that object is ticked |
| `KernelSync.SyncTick` | stk/include/stk.h:3091-3108 | a tick gives each waiter of every object exactly one timeout step and no other slot any, however lists shrink meanwhile |
| `KernelRuns.TickKeeps` | stk/include/stk.h:2428-2475 | a tick by any number of elapsed ticks keeps the invariant, for every legal answer of the strategy, unless it wakes a completed HRT job (`KernelBounce.BounceExact`: then it does not) |
| `KernelRuns.ForceKeeps` | stk/include/stk.h:2477-2520 | so does a forced switch |
| `KernelInv.SweepKeeps` | stk/include/stk.h:2962-3087 | visiting all slots in one tick keeps the invariant after each slot and leaves no sleep pending and no completed job on a task that is not current |
| `KernelInv.FsmKeeps` | stk/include/stk.h:3112-3341 | the scheduler step restores the full invariant for every legal answer of the strategy |
| `KernelTick.TickTask` | stk/include/stk.h:2905-3108 | the task in each slot after everything that a tick does before it asks for the next task, in closed form up to its time slice |
| `KernelTickless.TickReturnsQuiet` | stk/include/stk.h:398-431 | a tick that allows r suppressed ticks leaves a kernel in which no timer ends within r ticks |
| `KernelTickless.TickAnswers` | stk/include/stk.h:398-431 | the answer of every tick, of any size and locked or not, is between 1 and 1000; it is 1000 or exactly the timeout of some waiter or the remaining sleep of some task after the tick (1 for an awake one), and no task has a shorter one; without tickless operation it is 1 |
| `KernelTickless.QuietTick` | stk/include/stk.h:2962-3087 | in such a kernel fewer ticks only age the sleep counters |
| `KernelTickless.Tickless` | stk/include/stk.h:2428-2475 | one tick by j, for every j up to the number of ticks that the previous tick allowed, ends in the same state as j single ticks: clock, current task, state machines, lists, history, and each task awake, parked or asleep with the same remainder |
| `KernelSched.TickConserves` | stk/include/stk.h:3112-3198 | after every unlocked tick before the exit the CPU is with the task that the strategy chose, and the sleep trap is active exactly when no task is awake; a sleeping task is never handed to the scheduler; the state machine stays in its valid states and exits exactly when no task is left |
| `KernelSched.ForceConserves` | stk/include/stk.h:2477-2520 | the same after every forced switch that acts (a condition on the state before it), with what becomes of the current task, of the history and of the lock |
| `KernelSched.ActsExactly` | stk/include/stk.h:2487-2516 | a forced switch asks the strategy for the next task exactly when the named task is current and asleep with a pending sleep, or awake with a pending yield; otherwise it changes nothing |
| `KernelSched.LockHoldsCpu` | stk/include/stk.h:2456-2520 | the current task changes only in steps after which the kernel is not locked |
| `KernelSched.CallsKeepNow` | stk/include/stk.h:1639-1996 | calls of tasks and interrupt handlers never change the current task |
| `KernelSched.TimersRunLocked` | stk/include/stk.h:2456-2475 | under the lock a tick advances timers, wakes tasks and informs the strategy exactly as an unlocked tick |
| `KernelSched.ExpiredIsRunnable` | stk/include/stk.h:2999-3041 | a task whose sleep ends in a tick is awake and in the runnable set after it, locked or not |
| `KernelSched.LockHeldExactly` | stk/include/stk.h:2456-2520 | under the lock an event changes the current task exactly when it is a forced switch that names the holder, finds its sleep pending and leads elsewhere; such a switch releases the lock |
| `KernelSched.ScopeRestoresExactly` | stk/include/stk_common.h:2079-2094 | a lock scope with any body of events and nested scopes restores the kernel state found at entry if and only if the kernel is running or locked when the scope is left (or, when the lock could not be taken, is then in the state of the entry) |
| `KernelSched.SuspendedScopeIsNotRestored` | stk/include/stk.h:1958-1996 | a scope inside which the kernel is suspended leaves it suspended, for the restoring call fails |
| `KernelSched.HeldKeepsNow` | stk/include/stk.h:1318-1329 | through all nested scopes, as long as no event releases the lock, the current task keeps the CPU |
| `KernelSched.AddOutcome` | stk/include/stk.h:1472-1504 | an add succeeds exactly when it is allowed, task and stack are new and a slot is free; it binds the first free slot, whose whole contents follow from the arguments (period, deadline, start delay, full slice, nothing pending), and files the task under its own weight; a failed add changes nothing and names the failed condition |
| `KernelSched.Lifecycle` | stk/include/stk.h:2147-2190 | in every reachable state bound tasks and stacks are pairwise distinct, the strategy manages exactly the busy slots, and the current task is bound |
| `KernelExit.ExitsWithinTwoTicks` | stk/include/stk.h:775-805 | once all tasks are pending removal the kernel exits within two unlocked ticks if and only if the first of them does not wake the current task, a condition on its flags and its sleep counter before that tick |
| `KernelExit.CancelledExitSurvives` | stk/include/stk.h:1780-1813 | cancelling an exiting task that was not taken off yet leaves it bound, awake and runnable |
| `KernelFrame.OthersUntouched` | stk/include/stk.h:1639-2900 | no call, wake or forced switch changes the slot of a task that it does not name, wake or come from |
| `KernelWaits.ParkedStays` | stk/include/stk.h:1639-1813 | over every run without its resumption or removal, a suspended task and one whose suspension is deferred stay bound, asleep and suspended or deferred, are runnable only until their sleep is delivered and never again afterwards, and keep the result of a wait that is over |
| `KernelWaits.WaitReturnsItsEnd` | stk/include/stk.h:2696-2752 | in every run the value with which a wait returns is that of the one end since its begin in the history of the strategy and wait calls, and there is none exactly when no wait is over |
| `KernelWaits.WaitLasts` | stk/include/stk.h:591-614 | an undisturbed wait with a timeout of n ends as timed out after exactly n single ticks, one with a negative timeout with the first tick, and the task is awake in that tick |
| `KernelWaits.EndlessWait` | stk/include/stk.h:591-614 | a wait without a timeout does not end in any undisturbed run |
| `KernelWaits.DeferredSuspends` | stk/include/stk.h:1661-1668 | an undisturbed deferred suspension is in force, with the task suspended and not in the runnable set, exactly from the tick on with which its sleep or wait would have ended, and until then the task has the remainder it would have had; a wait has timed out |
| `KernelEntry.LiftUndoesDeferral` | stk/include/stk.h:1735-1775 | resuming a task whose suspension was deferred restores the state before the suspension exactly |
| `KernelFrame.WakeAllFifo` | stk/include/stk_common.h:751-759 | waking all ends with an empty list, having signalled exactly the waiters, first in first out, each with one wake-up |
| `KernelTiming.ClockSteps` | stk/include/stk.h:1356-1360 | the tick counter advances by the elapsed ticks of each tick and by nothing else |
| `KernelTiming.SleepLasts` | stk/include/stk.h:938-957 | an undisturbed sleep of n ticks ends after exactly n single ticks, or n + 1 if the entry tick took the task off |
| `KernelTiming.SleepUntilNotEarly` | stk/include/stk.h:2618-2655 | an undisturbed sleep until a timestamp never ends before it |
| `KernelTiming.FarSleepNeverEnds` | stk/include/stk.h:2618-2655 | a sleep until a timestamp beyond the largest timeout does not end in any undisturbed run, however many ticks pass |
| `KernelHrt.HrtTick` | stk/include/stk.h:2962-3087 | a tick moves a periodic task's schedule by one period when it starts a job, by one tick when it takes the finished task off, otherwise not |
| `KernelHrt.HrtForce` | stk/include/stk.h:879-895 | a take-off by the forced switch does not move the schedule |
| `KernelHrt.HrtYield` | stk/include/stk.h:2525-2571 | completing a job does not move the schedule |
| `KernelHrt.HrtNoDrift` | stk/include/stk.h:852-895 | over every disciplined run the next activation is the first plus one period for each job started plus one tick for each take-off by an entry tick |
| `KernelHrt.HrtActivationTime` | stk/include/stk.h:852-895 | the k-th job starts exactly at start delay plus k periods, plus one tick for each take-off by an entry tick |
| `KernelHrt.HrtAtStart` | stk/include/stk.h:2336-2394 | at the start a periodic task is off for exactly its start delay, or awake with a fresh job |
| `KernelMisses.EventTracks` | stk/include/stk.h:852-895 | every event keeps the account of every job: period and deadline are those that AddTask was told, the duration is the number of ticks that found the task awake since its job began |
| `KernelMisses.MissesExactly` | stk/include/stk.h:3046-3072 | in every run from a new kernel the misses that the strategy was told are exactly the ticks that found the task awake and brought its job beyond the deadline given to AddTask; no other event reports one |
| `KernelMisses.MissedExactly` | stk/include/stk.h:3046-3072 | after every run a tick reports a miss exactly when it finds the task awake and the awake ticks since the job began, this one included, exceed the deadline given to AddTask |
| `KernelMisses.RetiredRests` | stk/include/stk.h:879-895 | the step that takes a finished job off gives the task the rest of its period, or its own sleep when the job used the whole period, and starts the next job afresh |
| `KernelBounce.BounceExact` | stk/include/stk.h:2999-3041 | in HRT mode a tick is sound for every legal answer of the strategy (only the current task has a sleep pending, no completed job runs) if and only if the current task is not a completed job whose sleep the tick ends, a condition on its flags and counter before the tick |
| `KernelBounce.CallExact` | stk/include/stk.h:1735-1813 | for every call in HRT mode, in any state: the next tick is safe afterwards if and only if the call does not wake the completed job of the current task (CancelTaskWait, ResumeTask) or complete a job with an old wake pending; before the start every call is safe for the next tick |
| `KernelBounce.CallIsSafeExactly` | stk/include/stk.h:1735-1813 | the same as an equivalence between the call and the soundness of the next tick for every legal answer |
| `KernelBounce.BounceBreaksAgreement` | stk/include/stk.h:3207-3250 | an unsafe tick that selects another task leaves the woken job asleep, not current and in the runnable set |
| `KernelBounce.EarlyWake` | stk/include/stk.h:204-222 | before the start, CancelTaskWait and ResumeTask leave a wake pending exactly for a task whose start delay or suspension was not delivered yet |
| `KernelBounce.EarlyWakeSurvives` | stk/include/stk.h:2336-2394 | the start clears every pending sleep and keeps every pending wake |
| `KernelBounce.EarlyCancelBreaksAgreement` | stk/include/stk.h:2336-2394 | a concrete run with a cancel before the start and no wake of a completed job after which a sleeping task that is not current is in the runnable set |
| `KernelSlices.SlicesInRange` | stk/include/stk.h:468-490 | in every reachable state a sliced task has between 1 and quantum ticks left, unless it is the current task and awake |
| `KernelSlices.ChargesExactly` | stk/include/stk.h:2856-2885 | the slice that a tick charges is that of the current task, exactly when it has a quantum, is not under the sleep trap and is awake after the timers of the tick |
| `KernelSlices.EventAccounts` | stk/include/stk.h:468-490 | every event keeps the account of every slot: what is left is the quantum without the ticks charged since the last bind, sleep, suspension, exit, handled yield, quantum change or rotation |
| `KernelSlices.SlicesAccount` | stk/include/stk.h:2856-2885 | in every run from a new kernel, lock periods and ticks of any length included, what is left of each slice is its quantum without the ticks charged since its last reload |
| `KernelSlices.RotatesExactly` | stk/include/stk.h:2856-2885 | after every run a tick offers a task for rotation exactly when it charges it, the scheduler is not locked and the ticks charged since the last reload reach the quantum |
| `KernelSlices.WeightIndex` | stk/include/stk.h:246-323 | in every reachable state the effective weight is not below the base weight, and is the weight under which the strategy has the task filed |
| `KernelSlices.OldWeightIsFiled` | stk/include/stk.h:2787-2832 | the old weight in every OnTaskWeightChange of a run is the weight under which the task was filed |
| `KernelImpl.Kernel.constructor` | stk/include/stk.h:1388-1406 | a new kernel satisfies the invariant: all slots free, inactive |
| `KernelImpl.Kernel.Initialize` | stk/include/stk.h:1421-1449 | keeps the invariant; the kernel is ready and otherwise unchanged |
| `KernelImpl.Kernel.TickWaiter` | stk/include/stk.h:591-614 | in place: one timeout step of one waiter |
| `KernelImpl.Kernel.TickSync` | stk/include/stk_helper.h:316-348 | in place: the loop over the waiters found in the list equals one timeout step of each, also when they unlink themselves |
| `KernelImpl.Kernel.UpdateSyncObjects` | stk/include/stk.h:3091-3108 | in place: every registered object; those without waiters are dropped |
| `KernelImpl.Kernel.TickSlot` | stk/include/stk.h:2976-3075 | in place: removal, pending sleep, timers, wake-up, deferred suspension and deadline of one slot |
| `KernelImpl.Kernel.UpdateTaskState` | stk/include/stk.h:2962-3087 | in place: the loop over all slots; the answer is the shortest rest of the tasks that it leaves, at most 1000, and 1 without tickless operation |
| `KernelImpl.Kernel.UpdateFsmState` | stk/include/stk.h:3112-3341 | in place: event, transition table and the action of the new state |
| `KernelImpl.Kernel.OnTick` | stk/include/stk.h:2428-2475 | keeps the invariant; the clock advances; under the lock the current task stays, otherwise the CPU goes to the task that the strategy chose, an awake one, to the sleep trap exactly when there is none, or the kernel exits when no task is left; the answer is attained: it is the shortest rest of the tasks after the tick |
| `KernelImpl.Kernel.OnForceContextSwitch` | stk/include/stk.h:2477-2520 | keeps the invariant; acts exactly when the named task is current and asleep with its sleep pending, or awake with a pending yield; then the sleep is delivered to the strategy or the yield is over, no other task changes, the chosen task gets the CPU, and the kernel is unlocked and work conserving; otherwise nothing changes |
| `KernelImpl.Kernel.OnStart` | stk/include/stk.h:2336-2394 | keeps the invariant; the kernel runs, every task is as before without a pending sleep, and the CPU is with the task that the strategy chose or with the trap |
| `KernelImpl.Kernel.OnStop` | stk/include/stk.h:2401-2410 | keeps the invariant; the kernel is ready again, with an empty pool if no task was added since the exit |
| `KernelImpl.Kernel.OnSuspend` | stk/include/stk.h:2762-2785 | keeps the invariant; exactly a running or locked kernel becomes suspended and a suspended one runs again; the current task is the same and asleep, no other task changes, and resuming a kernel that was running restores its state |
| `KernelImpl.Kernel.TryAllocateNewTask` | stk/include/stk.h:2147-2190 | the first free slot, unless task or stack is in use |
| `KernelImpl.Kernel.AddTask` | stk/include/stk.h:1472-1504 | keeps the invariant; which answer is given, and for a success the whole new slot from the arguments |
| `KernelImpl.Kernel.RemoveTask` | stk/include/stk.h:1575-1593 | keeps the invariant; the task is bound nowhere afterwards and no other slot changed |
| `KernelImpl.Kernel.ScheduleRemoval` | stk/include/stk.h:775-805 | in place: cancels waits and suspension, marks for removal, parks |
| `KernelImpl.Kernel.ScheduleTaskRemoval` | stk/include/stk.h:1600-1622 | keeps the invariant; the task is marked, asleep without limit and waits for nothing, and no other slot changed |
| `KernelImpl.Kernel.SuspendTask` | stk/include/stk.h:1639-1724 | keeps the invariant; each answer as an equivalence on the state before the call: unknown, exiting or lock-holding task, already suspending, asleep (then only the request is recorded), otherwise done |
| `KernelImpl.Kernel.ResumeTask` | stk/include/stk.h:1735-1775 | keeps the invariant; each answer as an equivalence on the state before the call, and what becomes of the task |
| `KernelImpl.Kernel.CancelTaskWait` | stk/include/stk.h:1780-1813 | keeps the invariant; exactly the waiting or sleeping task that is not suspended is changed: a wait ends as cancelled, and the task is due at the next tick |
| `KernelImpl.Kernel.SetSchedulerLock` | stk/include/stk.h:1958-1996 | keeps the invariant; answers the state found, changes nothing else, and restoring the answer gives back the kernel as it was |
| `KernelImpl.Kernel.Sleep` | stk/include/stk.h:1061-1088 | keeps the invariant; the caller is asleep for n ticks and counted as runnable until it is taken off; refused exactly in HRT mode, under the lock or for n = 0 |
| `KernelImpl.Kernel.ExitTask` | stk/include/stk.h:2657-2694 | keeps the invariant; the caller is marked for removal and asleep without limit, and no other slot changed |
| `KernelImpl.Kernel.SleepUntil` | stk/include/stk.h:2618-2655 | keeps the invariant; the caller sleeps exactly to the timestamp, or without limit if that is too far; refused exactly in HRT mode, under the lock or for a past timestamp |
| `KernelImpl.Kernel.SwitchToNext` | stk/include/stk.h:2525-2571 | keeps the invariant; the strategy is told of the yield; the caller sleeps for one tick, or its yield is pending because the strategy took it; its job is complete in HRT mode; nothing happens under the lock |
| `KernelImpl.Kernel.WaitOn` | stk/include/stk.h:2696-2752 | keeps the invariant; the caller is the last of the object's list, sleeps without limit and the object is ticked; other lists are unchanged; a refused wait changes nothing |
| `KernelImpl.Kernel.FinishWait` | stk/include/stk.h:2696-2752 | keeps the invariant; returns the result of the one end since the wait began, and returns it only once |
| `KernelImpl.Kernel.Signal` | stk/include/stk_common.h:735-759 | keeps the invariant; waking all empties the list, waking one takes its first entry, exactly those waiters end as signalled, in list order, and no other task changed |
| `KernelImpl.Kernel.WakeAll` | stk/include/stk_common.h:751-759 | in place: the loop terminates and equals waking each waiter of the list found, in order |
| `KernelImpl.Kernel.InheritWeight` | stk/include/stk.h:2787-2805 | keeps the invariant; the effective weight becomes the greater of the old and the offered one, the base weight stays |
| `KernelImpl.Kernel.SetWeight` | stk/include/stk.h:2807-2832 | keeps the invariant; the base weight is the new one, a higher boost stays in force, the answer is the old base weight |
| `KernelImpl.Kernel.FindWeightHigherThan` | stk/include/stk_helper.h:351-368 | the greatest weight among the waiters if it exceeds the bound, otherwise none |
| `KernelImpl.Kernel.RestoreWeight` | stk/include/stk.h:2887-2901 | keeps the invariant; the effective weight is the base weight, or that of a waiter above the boosted task |
| `KernelImpl.Kernel.SetTimeSlice` | stk/include/stk.h:2834-2854 | keeps the invariant; the task starts a full slice of the new quantum, and setting the answer again restores the old quantum |
| `Rotation.TurnRotates` | stk/include/strategy/stk_strategy_fpriority.h:200-213 | a selection takes the head of the level's rotation and puts it at the end |
| `Rotation.UnlinkKeepsRotation` | stk/include/strategy/stk_strategy_fpriority.h:402-425 | taking any task out leaves the rotation of the others unchanged, wherever the cursor was |
| `Rotation.LinkPosition` | stk/include/strategy/stk_strategy_fpriority.h:149-165 | where a task joins the rotation: with the cursor on the tail an added task is last but a woken one first |
| `Rotation.RelinkUnchangedExactly` | stk/include/strategy/stk_strategy_fpriority.h:302-319 | a weight change to the same level leaves the rotation as it is if and only if the task is alone, or is not at the cursor and is first or last in the list |
| `Rotation.RelinkOvertakes` | stk/include/strategy/stk_strategy_fpriority.h:302-319 | after a weight change to the same level the task itself is selected next if and only if, without it, the cursor would be on the tail of the list |
| `Rotation.RelinkPutsBack` | stk/include/strategy/stk_strategy_fpriority.h:302-319 | such a change of the task at the cursor puts every other task behind its joining place back by exactly one, and no other task |
| `FixedPriority.HearKeeps` | stk/include/strategy/stk_strategy_fpriority.h:149-354 | every call that the contract allows keeps the lists, cursors and bitmap standing for the ledger, so none of the strategy's assertions fails |
| `FixedPriority.HearPlaces` | stk/include/strategy/stk_strategy_fpriority.h:149-319 | where each call leaves the tasks of its level: an added or woken task enters the rotation at its exact place, a sleeping or removed one leaves it with the order of the others kept, a weight change does both; no other level moves |
| `FixedPriority.NextIsHighest` | stk/include/strategy/stk_strategy_fpriority.h:200-213 | GetNext answers none exactly when nothing is runnable, otherwise the head of the rotation of the highest level in use, and moves only that rotation |
| `FixedPriority.YieldSelectsSuccessor` | stk/include/strategy/stk_strategy_fpriority.h:322-354 | after a handled yield the cursor is on the task, nothing else changed, and unless a runnable task weighs more the next selection is the successor of the task at its level, or itself when alone |
| `FixedPriority.FirstIsManaged` | stk/include/strategy/stk_strategy_fpriority.h:223-240 | GetFirst answers a managed task whenever there is one, and a runnable one of the highest weight whenever one is runnable |
| `FixedPriorityImpl.Strategy.AddActive` | stk/include/strategy/stk_strategy_fpriority.h:372-385 | in place: list, cursor and bitmap of one level |
| `FixedPriorityImpl.Strategy.RemoveActive` | stk/include/strategy/stk_strategy_fpriority.h:402-425 | in place: the reverse, with the cursor moved to the predecessor |
| `FixedPriorityImpl.Strategy.AddTask` | stk/include/strategy/stk_strategy_fpriority.h:149-165 | in place, and still standing for the ledger |
| `FixedPriorityImpl.Strategy.RemoveTask` | stk/include/strategy/stk_strategy_fpriority.h:175-189 | in place, from the sleeping tasks or from a level |
| `FixedPriorityImpl.Strategy.OnTaskSleep` | stk/include/strategy/stk_strategy_fpriority.h:264-272 | in place, from a level to the sleeping tasks |
| `FixedPriorityImpl.Strategy.OnTaskWake` | stk/include/strategy/stk_strategy_fpriority.h:283-291 | in place, from the sleeping tasks to a level |
| `FixedPriorityImpl.Strategy.OnTaskWeightChange` | stk/include/strategy/stk_strategy_fpriority.h:302-319 | in place, from the old level to the new one |
| `FixedPriorityImpl.Strategy.OnTaskYield` | stk/include/strategy/stk_strategy_fpriority.h:332-354 | handled exactly when supported and the task is runnable; then the cursor is on the task, nothing else changed, and the next selection is its successor unless a runnable task weighs more |
| `FixedPriorityImpl.Strategy.GetNext` | stk/include/strategy/stk_strategy_fpriority.h:200-213 | a runnable task of the highest weight, or none when nothing is runnable |
| `FixedPriorityImpl.Strategy.GetFirst` | stk/include/strategy/stk_strategy_fpriority.h:223-240 | a managed task, and a runnable one of the highest weight if there is one |
| `FixedPriorityImpl.Strategy.GetSize` | stk/include/strategy/stk_strategy_fpriority.h:247-256 | the sum over all lists is the number of managed tasks |
| `PriorityKernel.Played` | stk/include/strategy/stk_strategy_fpriority.h:149-354 | after every history of legal calls, with selections anywhere between, the strategy stands for exactly the ledger that the calls make up |
| `PriorityKernel.BoundedWaiting` | stk/include/strategy/stk_strategy_fpriority.h:332-425 | while a runnable task of the serving level is passed over there are no more selections than tasks before it, plus the times a task joined the level since, plus the detours of yields by tasks that were not selected last |
| `PriorityKernel.RelinkingStarves` | stk/include/strategy/stk_strategy_fpriority.h:302-319 | for every n, n weight changes to the same level, each followed by a selection, select the same task n times while its peers stay runnable |
| `PriorityKernel.RestoreTellsSameLevel` | stk/include/stk.h:2887-2901 | restoring the weight of a task that was not boosted, with no waiter above it, tells the strategy about such a change |
| `Starvation.UnlockingStarves` | stk/include/stk.h:2887-2901 | kernel and strategy together: for every n, n rounds of a weight restore and a tick with the strategy's own answer leave the same task on the CPU while its peers of the same weight stay awake |
| `Starvation.StarvingIsReached` | stk/include/strategy/stk_strategy_fpriority.h:149-165 | such a kernel is reached: two tasks of one priority, the start and one tick with the answers of the strategy |
| `PriorityKernel.TickServesHighest` | stk/include/strategy/stk_strategy_fpriority.h:200-213 | kernel and strategy together: after every unlocked tick before the exit the current task has the highest effective weight of all runnable tasks |
| `PriorityKernel.ForceServesHighest` | stk/include/stk.h:2477-2520 | the same after every forced switch that acts |
| `RttRing.Ring.constructor` | deps/segger/SEGGER_RTT.c:301-325 | an empty ring |
| `RttRing.Ring.GetAvailWriteSpace` | deps/segger/SEGGER_RTT.c:511-527 | free bytes, which with the stored bytes make up the size minus one |
| `RttRing.Ring.WriteNoCheck` | deps/segger/SEGGER_RTT.c:421-474 | appends exactly the data, given that it fits |
| `RttRing.Ring.WriteSkip` | deps/segger/SEGGER_RTT.c:919-978 | appends all of the data exactly when it fits, otherwise changes nothing |
| `RttRing.Ring.WriteBlocking` | deps/segger/SEGGER_RTT.c:359-401 | against a host that takes given amounts and then stops: what the host took followed by the ring is the old contents followed by what was written; the loop goes round for ever exactly when the data exceeds the free space together with what the host took, otherwise all is written |
| `RttRing.Ring.WriteNoLock` | deps/segger/SEGGER_RTT.c:1084-1133 | appends the part of the data that the mode prescribes and returns its length; blocks exactly in blocking mode when the data exceeds the free space together with what the host took |
| `RttRing.Ring.Read` | deps/segger/SEGGER_RTT.c:558-720 | returns the longest prefix that fits the reader's buffer and leaves the rest, also when the second count underflows |
| `RttRing.Ring.GetBytesInBuffer` | deps/segger/SEGGER_RTT.c:2057-2075 | right if and only if the data does not wrap or the offsets are 2^31 apart |
| `RttRing.Ring.WriteWithOverwrite` | deps/segger/SEGGER_RTT.c:818-889 | computes the overwrite function; keeps the newest bytes within the bound |
| `RttRing.Ring.WriteRounds` | deps/segger/SEGGER_RTT.c:846-889 | the rounds of the copying loop |
| `RttRing.OverwriteKeepsNewest` | deps/segger/SEGGER_RTT.c:818-889 | a write shorter than the rest of the buffer plus one round leaves the longest suffix of old and new data that fits |
| `RttRing.OverwriteExact` | deps/segger/SEGGER_RTT.c:818-889 | all writes of a length keep the newest bytes if and only if the length is below that bound |
| `RttConcurrent.StepKeeps` | deps/segger/SEGGER_RTT.c:359-401 | each single load, byte copy or offset store of either side keeps the shared invariant |
| `RttConcurrent.After` | deps/segger/SEGGER_RTT.c:359-631 | the state after any schedule of moves of writer and reader satisfies the shared invariant |
| `RttConcurrent.InterleavingsAreFifo` | deps/segger/SEGGER_RTT.c:359-401 | under every interleaving, delivered bytes followed by those in the ring are the published bytes, and followed by what the writer holds, the accepted bytes |
| `RttConcurrent.ReadReturnsSnapshot` | deps/segger/SEGGER_RTT.c:558-631 | a read returns the longest prefix that fits of what was stored when it loaded the write offset, whatever the writer does meanwhile |
| `RttConcurrent.BlockingCompletes` | deps/segger/SEGGER_RTT.c:359-401 | under every interleaving a blocking write has found room for all of its data after at most as many loads of the read offset at a moment when the ring is not full as it has bytes |
| `RttConcurrent.DrainingMakesRoom` | deps/segger/SEGGER_RTT.c:558-631 | a completed read of at least one byte leaves room until the writer publishes, so a reader that keeps draining makes the next load count |
| `RttTerminal.DemuxFrame` | deps/segger/SEGGER_RTT.c:489-495 | switch, text, switch back: the host shows the text on its terminal and ends on the active one |
| `RttTerminal.Terminal.TerminalOut` | deps/segger/SEGGER_RTT.c:1948-2021 | against a host that takes bytes meanwhile: never blocks in skip and trim mode, and in blocking mode exactly when switch, text and switch back exceed the free space together with what the host took; status and stored bytes for every mode; when it completes the host sees exactly the stored text and is back on the active terminal |
| `RttTerminal.Terminal.SetTerminal` | deps/segger/SEGGER_RTT.c:1899-1930 | the active terminal changes exactly when its switch is stored or, in blocking mode, being stored; blocks exactly when the switch exceeds the free space together with what the host took |
| `Sysview.LebRoundTrip` | deps/segger/SEGGER_SYSVIEW.c:407-418 | every number is read back, whatever follows |
| `Sysview.LebFits` | deps/segger/SEGGER_SYSVIEW.h:85-85 | 32 bits take at most five bytes |
| `Sysview.LebShortest` | deps/segger/SEGGER_SYSVIEW.c:407-418 | no byte string that decodes to the same number is shorter |
| `Sysview.EncodeU32` | deps/segger/SEGGER_SYSVIEW.c:407-418 | writes that encoding in place and nothing else |
| `Sysview.BuildPacket` | deps/segger/SEGGER_SYSVIEW.c:738-812 | prepending id and length into the four reserved bytes and appending the time difference yields the packet's bytes |
| `Sysview.PacketRoundTrip` | deps/segger/SEGGER_SYSVIEW.c:738-812 | an event packet, known or not, or an overflow packet at the front of a stream is read back, whatever follows |
| `Sysview.KnownIsCarried` | deps/segger/SEGGER_SYSVIEW.c:495-530 | the payload of every known event below id 24, numbers and perhaps a text, is one whose length the decoder finds from the id |
| `Sysview.StreamRoundTrip` | deps/segger/SEGGER_SYSVIEW.c:633-864 | every stream of such packets decodes to exactly those packets |
| `Recorder.Recording.TrySendOverflowPacket` | deps/segger/SEGGER_SYSVIEW.c:633-663 | stores the overflow packet and returns to the enabled state, or counts one more drop |
| `Recorder.Recording.SendPacket` | deps/segger/SEGGER_SYSVIEW.c:738-864 | the three-state machine over the all-or-nothing ring: new state, and stored are exactly the overflow packet when the recorder was dropping and it fits, and the event when the recorder is reached, the event is not switched off and fits |
| `Recorder.RunOf` | deps/segger/SEGGER_SYSVIEW.c:738-864 | every run of requests, host reads and mask changes keeps stream, times, kept requests and loss counts in agreement |
| `Recorder.LostOnce` | deps/segger/SEGGER_SYSVIEW.c:738-864 | a request is lost exactly when it is counted, once, as a drop or as a change from enabled to dropping |
| `Recorder.OutcomeExactly` | deps/segger/SEGGER_SYSVIEW.c:738-864 | each outcome as an equivalence on the state before the request: off, masked (reached, id below 32 and switched off), kept (reached, not masked, fits), lost otherwise; and exactly which packets are stored |
| `Recorder.RequestsAccounted` | deps/segger/SEGGER_SYSVIEW.c:777-781 | for every run the mask in force is the last one set, the kept requests are in order exactly those that reached the recorder unmasked and fitted, and kept plus lost are all requests but those masked at their moment |
| `Recorder.StreamIsFaithful` | deps/segger/SEGGER_SYSVIEW.c:738-864 | for every run the bytes taken and in the ring decode to the stored packets, their events are the kept requests in order, and the differences give back the time of every packet despite drops |
| `Recorder.LossesAreReported` | deps/segger/SEGGER_SYSVIEW.c:633-663 | for every run the losses are the drop counter plus the overflow packets plus one while dropping, and each overflow packet lets the host compute the losses before it, modulo 2^32 |
| `TickCounter.Counter.WriteVolatile64` | stk/include/stk_arch.h:396-427 | two stores, high half first; the words' history is the timeline of the written values |
| `TickCounter.Counter.IncrementTicks` | stk/include/stk.h:1356-1360 | the counter advances and its history only grows |
| `TickCounter.ReadExact` | stk/include/stk_arch.h:331-375 | loads with equal high halves give the value completely written at the low load, if and only if the two first loads do not fall between the stores of one carrying write |
| `TickCounter.UninterruptedIsExact` | stk/include/stk_arch.h:331-375 | with a writer that is not interrupted between its stores every read is exact |
| `TickCounter.TornValue` | stk/include/stk_arch.h:331-375 | the value of a torn read is ahead of the counter |
| `TickCounter.TornExample` | stk/include/stk_arch.h:331-375 | a torn read at the first carry |
| `TickCounter.ReadVolatile64` | stk/include/stk_arch.h:331-375 | the retry loop against every timing: the value of the first round with equal high halves, and no more retries than steps of the high half |

## Left out

- Task objects: slots are values in an array that methods replace; aliasing of task objects and their list links is not modelled. Lists are sequences.
- Integer width in the kernel: ticks, timeouts and weights are unbounded; only the infinite timeout is a constant.
- Wait timeouts: a wait with a timeout of zero, which the code asserts against, is not an event of a run; a wait with a mutex is its two halves.
- The caller: a task calls the kernel only while it is current, awake and not exiting, so a running task that an interrupt handler parked does not sleep again in the same tick. Lookup by stack pointer is not modelled.
- KernelCalls.NextKeeps: waits on sync objects in hard-real-time mode are not events of a run, because taking a waiting task off rewrites its sleep counter there; ticks that wake a completed job are excluded, as `KernelBounce` describes them.
- KernelImpl.Kernel.WaitOn: is stated outside hard-real-time mode, for the same reason.
- Deadline misses: recorded in the history as a call to the strategy; the hard fault that follows is not modelled.
- Strategies without sleep events, and the round-robin, weighted, monotonic, deadline and threshold strategies; the kernel theorems hold for all that obey the contract.
- The ready bitmap is a set of levels; its bit scan is not modelled.
- Platform drivers, stacks, traps, critical sections (each entry point is one step), memory protection, thread-local storage, tracing, enumeration of tasks, and the memory, time and sync libraries.
- RTT: locks, several channels, configuration, caches and memory barriers; formatted output. A text longer than 2^32 - 5 bytes.
- RttRing.Ring.WriteWithOverwrite: a write of two bytes to a ring of one byte does not end in the code and is excluded; the newest-data law needs a buffer of at most 2^31 bytes.
- RttRing.Ring.constructor: stands for the initialisation of one channel only.
- SystemView: known events below id 24 with another payload than their record functions write, starting and stopping a recording, post-mortem mode, commands of the host, clocks of fewer than 32 bits.
