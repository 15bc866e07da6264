/** What each entry point of the kernel means for its caller: the invariant is kept, and the facts a caller
    relies on. The object in Kernel.dfy carries these as its contracts. */
module KernelEntry {
  import opened KernelTypes
  import opened KernelSpec
  import opened KernelInv
  import opened KernelSync
  import opened KernelRuns
  import opened KernelCalls
  import opened KernelSched
  import opened KernelTickless
  import opened KernelFrame
  import opened KernelWaits

  // ---- platform events ------------------------------------------------------------------------

  /** The clock advances. Under the lock the current task stays; otherwise the CPU goes to the task that the
      strategy chose, an awake one, or to the sleep trap when there is none, or the kernel exits when no task
      is left. The answer is the shortest rest of the tasks. */
  ghost predicate TickMeans(k: K, r: K, e: int, c: Choice, answer: int) {
    && r.kstate == k.kstate && r.ticks == k.ticks + e && Shortest(k.mode, r.tasks, answer)
    && (k.kstate == Locked ==> r.now == k.now && r.fsm == k.fsm)
    && (k.kstate != Locked && k.now.Some? ==>
          if r.fsm == Exiting then r.strat.all == {} && r.now.None? else WorkConserving(r) && Served(k, r, c))
  }

  lemma TickEntry(k: K, e: int, c: Choice)
    requires Inv(k) && Enabled(k, TickBy(e, c))
    ensures Shaped(k) && Inv(Tick(k, e, c)) && TickMeans(k, Tick(k, e, c), e, c, TickReturn(k, e))
  {
    hide Core, TickBody, TickReturn, UpdateFsmState, WorkConserving, BounceFree, Shortest, Served;
    CoreShaped(k);
    TickAnswers(k, e, c);
    TickKeeps(k, e, c);
    BodyFrame(k, e);
    FsmKState(TickBody(k, e), c);
    if k.kstate != Locked && k.now.Some? {
      TickConserves(k, e, c);
      ExitLeavesNone(k, e, c);
    }
  }

  lemma ExitLeavesNone(k: K, e: int, c: Choice)
    requires Inv(k) && Enabled(k, TickBy(e, c)) && k.kstate != Locked && k.now.Some?
    ensures Tick(k, e, c).fsm == Exiting ==> Tick(k, e, c).strat.all == {} && Tick(k, e, c).now.None?
  {
    hide Core, TickBody;
    CoreShaped(k);
    BodyFrame(k, e);
    TickConserves(k, e, c);
    ModeFacts(k);
  }

  /** A switch that acts takes the current task off, or takes its yield, gives the CPU to the task that the
      strategy chose and leaves the kernel unlocked and work conserving; one that does not changes nothing. */
  ghost predicate ForceMeans(k: K, r: K, id: nat, c: Choice) {
    if Acts(k, id) then r.kstate != Locked && WorkConserving(r) && Served(k, r, c) && TakenOff(k, r, k.now.value)
    else r == k
  }

  lemma ForceEntry(k: K, id: nat, c: Choice)
    requires Inv(k) && Enabled(k, Force(id, c))
    ensures Shaped(k) && Inv(ForceSwitch(k, id, c)) && ForceMeans(k, ForceSwitch(k, id, c), id, c)
  {
    hide Core, UpdateFsmState, WorkConserving, ForceBody, TakenOff, Acts, Served;
    CoreShaped(k);
    ForceKeeps(k, id, c);
    ActsExactly(k, id, c);
    if Acts(k, id) {
      ForceConserves(k, id, c);
      ForceUnlocks(k, id);
      FsmKState(ForceBody(k, id).value, c);
    }
  }

  /** The kernel runs, every pending sleep was delivered and no task changed otherwise, and the CPU is with the
      task that the strategy chose, an awake one, or with the trap when there is none. */
  ghost predicate StartMeans(k: K, r: K, c: Choice) {
    && r.kstate == Running && |r.tasks| == |k.tasks| && WorkConserving(r)
    && r.now == (if c.next.Some? then c.next else Some(c.first))
    && r.fsm == (if c.next.Some? then Switching else Sleeping)
    && forall j :: 0 <= j < |r.tasks| ==> r.tasks[j] == k.tasks[j].(sleepPending := false)
  }

  lemma StartEntry(k: K, c: Choice)
    requires Inv(k) && Enabled(k, Start(c))
    ensures Inv(OnStart(k, c)) && StartMeans(k, OnStart(k, c), c)
  {
    StartKeeps(k, c);
    StartFromKeeps(k, 0);
    hide WaitsInv, Distinct, Replay, StartFrom;
    var k1, r := StartFrom(k, 0), OnStart(k, c);
    assert |k1.strat.all| != 0;
    forall j | 0 <= j < |r.tasks|
      ensures j in k1.strat.filed <==> Busy(r.tasks[j]) && !Asleep(r.tasks[j])
    {
      assert SlotInv(k1, j);
    }
    if c.next.None? {
      assert forall j :: 0 <= j < |r.tasks| && Busy(r.tasks[j]) ==> Asleep(r.tasks[j]);
    } else {
      assert !Asleep(r.tasks[c.next.value]);
    }
  }

  /** After a stop the pool is empty and the kernel can be started again. */
  ghost predicate StopMeans(r: K) {
    && r.kstate == Ready && r.fsm == FsmNone && r.now.None? && r.strat.all == {}
    && forall j :: 0 <= j < |r.tasks| ==> !Busy(r.tasks[j])
  }

  /** The exiting state is reached with an empty pool only; tasks may be added again before the stop. */
  lemma StopEntry(k: K)
    requires Inv(k) && Enabled(k, Stop)
    ensures Inv(OnStop(k)) && OnStop(k).kstate == Ready && OnStop(k).now.None?
    ensures k.strat.all == {} ==> StopMeans(OnStop(k))
  {
    StopKeeps(k);
    hide WaitsInv, Distinct, Replay;
    forall j | 0 <= j < |k.tasks| ensures Busy(k.tasks[j]) <==> j in k.strat.all { assert SlotInv(k, j); }
  }

  /** A running or locked kernel becomes suspended and a suspended one runs again. The current task is asleep,
      for one tick if it was awake, so that the next switch or tick takes it off; suspending and resuming a
      kernel that was running restores its state. */
  ghost predicate PauseMeans(k: K, r: K, suspend: bool) {
    && Shaped(r) && r.now == k.now && r.fsm == k.fsm && r.log == k.log
    && (r.kstate != k.kstate <==> if suspend then Lockable(k.kstate) else k.kstate == Suspended)
    && (r.kstate != k.kstate ==> r.kstate == if suspend then Suspended else Running)
    && k.now.Some? && k.now.value < |r.tasks| == |k.tasks| && Asleep(r.tasks[k.now.value])
    && (forall j :: 0 <= j < |k.tasks| && (j != k.now.value || Asleep(k.tasks[j])) ==> r.tasks[j] == k.tasks[j])
    && (!Asleep(k.tasks[k.now.value]) ==> r.tasks[k.now.value].sleep == -1 && r.tasks[k.now.value].sleepPending)
    && (suspend && k.kstate == Running ==> OnSuspend(r, false).kstate == k.kstate)
  }

  lemma PauseEntry(k: K, suspend: bool)
    requires Inv(k) && k.now.Some?
    ensures Shaped(k) && Inv(OnSuspend(k, suspend))
    ensures PauseMeans(k, OnSuspend(k, suspend), suspend)
  {
    PauseKeeps(k, suspend);
    hide Core;
    CoreShaped(k);
  }

  // ---- tasks of the pool ----------------------------------------------------------------------

  /** Exactly when an add succeeds, and what it does; a failed one changes nothing and says why. */
  ghost predicate AddMeans(k: K, r: K, res: AddResult, u: User, hrt: Option<(int, int, int)>) {
    && (res != AddOk ==> r == k)
    && (res == AddInvalid <==> !AddAllowed(k, hrt))
    && (res == AddDuplicate <==> AddAllowed(k, hrt) && exists j :: 0 <= j < |k.tasks| && Collides(k.tasks[j], u))
    && (res == AddPoolFull ==> forall j :: 0 <= j < |k.tasks| ==> Busy(k.tasks[j]))
    && (res == AddOk ==> exists i :: 0 <= i < |k.tasks| && AddedAt(k, r, u, hrt, i))
  }

  lemma AddEntry(k: K, u: User, hrt: Option<(int, int, int)>)
    requires Inv(k)
    ensures Inv(AddTask(k, u, hrt).0) && AddMeans(k, AddTask(k, u, hrt).0, AddTask(k, u, hrt).1, u, hrt)
  {
    hide Core, AddTask;
    AddKeeps(k, u, hrt);
    AddOutcome(k, u, hrt);
  }

  /** In a kernel that allows it the task is gone, and no other is touched. */
  ghost predicate RemoveMeans(k: K, r: K, u: nat) {
    && |r.tasks| == |k.tasks| && (!k.mode.dynamic ==> r == k)
    && (k.mode.dynamic ==> forall j :: 0 <= j < |r.tasks| ==> !Named(r, u, j))
    && forall j :: 0 <= j < |k.tasks| && !Named(k, u, j) ==> r.tasks[j] == k.tasks[j]
  }

  lemma RemoveEntry(k: K, u: nat)
    requires Inv(k) && k.now.None?
    ensures Inv(RemoveTask(k, u)) && RemoveMeans(k, RemoveTask(k, u), u)
  {
    RemoveTaskKeeps(k, u);
    forall j | 0 <= j < |k.tasks| && Named(k, u, j) ensures Find(k, u) == Some(j) { FindIsUnique(k, u, j); }
    hide Core, Post, EffWeight, FindFrom;
    NamedFound(k, u);
  }

  lemma NamedFound(k: K, u: nat)
    ensures Find(k, u).Some? ==> Named(k, u, Find(k, u).value)
  {
  }

  /** The task is on its way out: asleep without limit, marked, and waiting for nothing. */
  predicate Leaving(t: Task) { Busy(t) && t.removePending && Infinite(t) && !IsWaiting(t) }

  /** Once started, a removal marks the task, wherever it was, and the strategy knows that it sleeps unless it is
      current; no other task is touched. */
  ghost predicate ExpelMeans(k: K, r: K, i: nat) {
    && |r.tasks| == |k.tasks| && i < |k.tasks| && Leaving(r.tasks[i]) && r.now == k.now
    && r.tasks[i].user == k.tasks[i].user && (k.mode.hrt ==> r.tasks[i].hrt.done)
    && (i in r.strat.filed ==> k.now == Some(i))
    && forall j :: 0 <= j < |k.tasks| && j != i ==> r.tasks[j] == k.tasks[j]
  }

  lemma RemovalEntry(k: K, i: nat)
    requires Inv(k) && k.now.Some? && k.mode.dynamic && i < |k.tasks| && Busy(k.tasks[i])
    ensures Inv(ScheduleRemoval(k, i)) && ExpelMeans(k, ScheduleRemoval(k, i), i)
  {
    ScheduleRemovalKeeps(k, i);
    hide Core, ScheduleRemoval;
    RemovalMarks(k, i);
    var r := ScheduleRemoval(k, i);
    SleepFacts(r, i);
    if r.tasks[i].sleepPending { PendingFacts(r, i); }
  }

  lemma RemovalMarks(k: K, i: nat)
    requires i < |k.tasks| && Busy(k.tasks[i])
    ensures var r := ScheduleRemoval(k, i);
      && |r.tasks| == |k.tasks| && Leaving(r.tasks[i]) && r.now == k.now
      && r.tasks[i].user == k.tasks[i].user && (k.mode.hrt ==> r.tasks[i].hrt.done)
      && forall j :: 0 <= j < |k.tasks| && j != i ==> r.tasks[j] == k.tasks[j]
  {
    hide Post, EffWeight, WaitList, Without;
  }

  // ---- suspension, cancellation, lock ---------------------------------------------------------

  /** The task `u` that a caller may suspend or resume: it is bound and not exiting. */
  predicate Reaches(k: K, u: nat) { Find(k, u).Some? && !k.tasks[Find(k, u).value].removePending }

  predicate Suspending(t: Task) { t.suspended || t.suspendPending }

  /** Only slot `i` may differ. */
  ghost predicate OnlySlot(k: K, r: K, i: nat) {
    && |r.tasks| == |k.tasks| && r.now == k.now && r.kstate == k.kstate && r.waits == k.waits
    && forall j :: 0 <= j < |k.tasks| && j != i ==> r.tasks[j] == k.tasks[j]
  }

  /** Which answer a suspension gives, from the state before the call. An unknown or exiting task, and the
      holder of the lock itself, cannot be suspended; for a task that sleeps or waits the request is recorded
      and nothing else changes; an awake task sleeps without limit, and the strategy knows at once unless the
      task is current or the kernel was not started. */
  ghost predicate SuspendMeans(k: K, r: K, res: SuspendResult, u: nat) {
    if !Reaches(k, u) then res == SuspendFail && r == k else
    var i := Find(k, u).value;
    var t := k.tasks[i];
    && (res == SuspendAlready <==> Suspending(t))
    && (res == SuspendDeferred <==> !Suspending(t) && Asleep(t))
    && (res == SuspendFail <==> !Suspending(t) && !Asleep(t) && k.kstate == Locked && k.now == Some(i))
    && match res
       case SuspendDeferred => OnlySlot(k, r, i) && r.tasks[i] == t.(suspendPending := true) && r.log == k.log
       case SuspendDone =>
         && OnlySlot(k, r, i) && r.tasks[i].suspended && Infinite(r.tasks[i]) && Parked(r.tasks[i])
         && (i in r.strat.filed <==> k.now.None? || k.now == Some(i))
       case _ => r == k
  }

  lemma SuspendEntry(k: K, u: nat)
    requires Inv(k)
    ensures Inv(SuspendTask(k, u).0) && SuspendMeans(k, SuspendTask(k, u).0, SuspendTask(k, u).1, u)
  {
    SuspendKeeps(k, u);
    hide Core, FindFrom, Post, EffWeight, Parked;
    var (r, res) := SuspendTask(k, u);
    if res == SuspendDone {
      var i := Find(k, u).value;
      SleepFacts(k, i);
      SleepFacts(r, i);
      SuspendedNow(k, u);
    }
  }

  lemma SuspendedNow(k: K, u: nat)
    requires SuspendTask(k, u).1 == SuspendDone && !k.tasks[Find(k, u).value].sleepPending
    ensures var r, i := SuspendTask(k, u).0, Find(k, u).value;
      && OnlySlot(k, r, i) && r.tasks[i].suspended && Infinite(r.tasks[i]) && Parked(r.tasks[i])
      && (r.tasks[i].sleepPending <==> k.now.None? || k.now == Some(i))
  {
    hide FindFrom, Post, EffWeight;
  }

  lemma PendingFacts(k: K, i: nat)
    requires Inv(k) && i < |k.tasks| && k.now.Some? && k.tasks[i].sleepPending
    ensures k.now == Some(i)
  {
    assert SlotInv(k, i);
  }

  lemma SleepFacts(k: K, i: nat)
    requires Inv(k) && i < |k.tasks|
    ensures var t := k.tasks[i];
      && (t.sleepPending ==> Asleep(t)) && (i in k.strat.filed <==> Busy(t) && (!Asleep(t) || t.sleepPending))
  {
    assert SlotInv(k, i);
  }

  /** Which answer a resumption gives, from the state before the call: a suspension in force ends, and the task
      is due at the next tick; a deferred one is withdrawn, and the task sleeps or waits on as if it had never
      been asked for. */
  ghost predicate ResumeMeans(k: K, r: K, res: ResumeResult, u: nat) {
    if !Reaches(k, u) then res == ResumeFail && r == k else
    var i := Find(k, u).value;
    var t := k.tasks[i];
    && (res == ResumeDone <==> t.suspended) && (res == ResumeLifted <==> !t.suspended && t.suspendPending)
    && (res == ResumeNotSuspended <==> !Suspending(t)) && r.log == k.log
    && match res
       case ResumeDone =>
         && OnlySlot(k, r, i) && !r.tasks[i].suspended && r.tasks[i].sleep == (if Asleep(t) then -1 else t.sleep)
         && (t.sleepPending ==> r.tasks[i].wakePending)
       case ResumeLifted => OnlySlot(k, r, i) && r.tasks[i] == t.(suspendPending := false)
       case _ => r == k
  }

  lemma ResumeEntry(k: K, u: nat)
    requires Inv(k)
    ensures Inv(ResumeTask(k, u).0) && ResumeMeans(k, ResumeTask(k, u).0, ResumeTask(k, u).1, u)
  {
    ResumeKeeps(k, u);
    if Find(k, u).Some? { SleepFacts(k, Find(k, u).value); }
    hide Core, FindFrom;
  }

  /** Lifting a deferred suspension is the inverse of asking for it. */
  lemma LiftUndoesDeferral(k: K, u: nat)
    requires Inv(k) && SuspendTask(k, u).1 == SuspendDeferred
    ensures ResumeTask(SuspendTask(k, u).0, u) == (k, ResumeLifted)
  {
    SuspendEntry(k, u);
    var i, r := Find(k, u).value, SuspendTask(k, u).0;
    FindIsUnique(r, u, i);
    hide Core, FindFrom;
    assert r.tasks[i := k.tasks[i]] == k.tasks;
  }

  /** The task after a wake-up: due at the next tick, also when it was not taken off yet. */
  function Due(t: Task): Task { t.(sleep := -1, wakePending := t.wakePending || t.sleepPending) }

  /** The task waits no more: a wait ended as cancelled, or a sleep is due at the next tick. A suspended or awake
      task stays as it is, and so does every other task. */
  ghost predicate CancelMeans(k: K, r: K, u: nat) {
    if Find(k, u).None? then r == k else
    var i := Find(k, u).value;
    var t := k.tasks[i];
    if IsWaiting(t) || (Asleep(t) && !t.suspended) then
      && |r.tasks| == |k.tasks| && r.now == k.now && r.kstate == k.kstate
      && (forall j :: 0 <= j < |k.tasks| && j != i ==> r.tasks[j] == k.tasks[j])
      && r.tasks[i] == Due(if IsWaiting(t) then t.(wait := Wait(None, 0, Cancelled)) else t)
      && r.log == k.log + if IsWaiting(t) then [WaitEnded(i, Cancelled)] else []
    else r == k
  }

  lemma CancelEntry(k: K, u: nat)
    requires Inv(k)
    ensures Inv(CancelTaskWait(k, u)) && CancelMeans(k, CancelTaskWait(k, u), u)
  {
    CancelKeeps(k, u);
    hide Core;
    if Find(k, u).Some? {
      var i := Find(k, u).value;
      WaitsOnlyInSync(k, i);
      hide FindFrom, EndWaitAndWake;
      if IsWaiting(k.tasks[i]) { CancelledTask(k, i); }
      assert k.log + [] == k.log;
    }
  }

  lemma WaitsOnlyInSync(k: K, i: nat)
    requires Inv(k) && i < |k.tasks|
    ensures IsWaiting(k.tasks[i]) ==> k.mode.sync && !k.tasks[i].suspended
  {
    assert SlotInv(k, i);
  }

  lemma CancelledTask(k: K, i: nat)
    requires i < |k.tasks| && IsWaiting(k.tasks[i])
    ensures var r, t := EndWaitAndWake(k, i, Cancelled), k.tasks[i];
      && |r.tasks| == |k.tasks| && r.now == k.now && r.kstate == k.kstate && r.log == k.log + [WaitEnded(i, Cancelled)]
      && (forall j :: 0 <= j < |k.tasks| && j != i ==> r.tasks[j] == k.tasks[j])
      && r.tasks[i] == Due(t.(wait := Wait(None, 0, Cancelled)))
  {
    hide Post, WaitList, Without;
  }

  /** The answer is the state found; taking the lock and restoring the state found is a round trip; the call
      never changes the current task. */
  ghost predicate LockMeans(k: K, r: K, res: LockResult, lock: bool, isr: bool) {
    && r == k.(kstate := r.kstate)
    && (res == LockWasLocked || res == LockWasUnlocked <==> !k.mode.hrt && !isr && Lockable(k.kstate))
    && (res == LockFailIsr <==> !k.mode.hrt && isr)
    && (if res == LockWasLocked || res == LockWasUnlocked
        then (r.kstate == Locked <==> lock) && (res == LockWasLocked <==> k.kstate == Locked)
             && SetSchedulerLock(r, res == LockWasLocked, false).0 == k
        else r == k)
  }

  lemma LockEntry(k: K, lock: bool, isr: bool)
    requires Inv(k) && (isr || Active(k) || k.kstate == Inactive || k.kstate == Ready)
    ensures Inv(SetSchedulerLock(k, lock, isr).0)
    ensures LockMeans(k, SetSchedulerLock(k, lock, isr).0, SetSchedulerLock(k, lock, isr).1, lock, isr)
  {
    LockKeeps(k, lock, isr);
  }

  // ---- calls of the running task --------------------------------------------------------------

  /** The caller is asleep for `n` ticks and still counted as runnable until it is taken off; a refused call
      changes nothing. */
  ghost predicate SleepMeans(k: K, r: K, ok: bool, n: int) {
    && k.now.Some? && k.now.value < |r.tasks|
    && (ok <==> !k.mode.hrt && k.kstate != Locked && n > 0)
    && if ok then r.tasks[k.now.value].sleep == -n && r.tasks[k.now.value].sleepPending && k.now.value in r.strat.filed
       else r == k
  }

  lemma SleepEntry(k: K, n: int)
    requires Inv(k) && Active(k) && 0 <= n <= WAIT_INFINITE
    ensures Inv(Sleep(k, n).0) && SleepMeans(k, Sleep(k, n).0, Sleep(k, n).1, n)
  {
    if !k.mode.hrt { NapKeeps(k, n); }
    assert SlotInv(k, k.now.value);
    assert k.tasks[k.now.value := k.tasks[k.now.value]] == k.tasks;
    hide Core;
  }

  /** The caller sleeps to the timestamp, or without limit when it is too far away; a refused call changes
      nothing. */
  ghost predicate UntilMeans(k: K, r: K, ok: bool, timestamp: int) {
    && k.now.Some? && k.now.value < |r.tasks|
    && (ok <==> !k.mode.hrt && k.kstate != Locked && timestamp > k.ticks)
    && if !ok then r == k
       else var t := r.tasks[k.now.value];
            && Asleep(t) && t.sleepPending
            && (r.ticks - t.sleep == timestamp || (Infinite(t) && timestamp > r.ticks - t.sleep))
  }

  lemma UntilEntry(k: K, timestamp: int)
    requires Inv(k) && Active(k)
    ensures var (r, ok) := SleepUntil(k, timestamp); Inv(r) && UntilMeans(k, r, ok, timestamp)
  {
    NapUntilKeeps(k, timestamp);
    hide Core;
  }

  /** The caller gives up the CPU at the next switch or tick: it sleeps for one tick, or its yield is pending
      because the strategy, which is told of it, took it; its job is complete in HRT mode. Under the lock nothing
      happens. */
  ghost predicate YieldMeans(k: K, r: K, handled: bool) {
    && k.now.Some? && k.now.value < |r.tasks| && r.now == k.now
    && var t := r.tasks[k.now.value];
       if k.kstate == Locked then r == k
       else
         && r.log == k.log + (if k.mode.noSleepYield && !k.mode.hrt then [Yielded(k.now.value)] else [])
         && if k.mode.noSleepYield && !k.mode.hrt && handled then t.yieldPending && !Asleep(t)
            else t.sleep == -1 && t.sleepPending && (k.mode.hrt ==> t.hrt.done)
  }

  lemma YieldEntry(k: K, handled: bool)
    requires Inv(k) && Active(k)
    ensures Inv(SwitchToNext(k, handled)) && YieldMeans(k, SwitchToNext(k, handled), handled)
  {
    YieldKeeps(k, handled);
    hide Core, Post;
  }

  /** The caller is the last in the list of the object, sleeps without limit, and the object is ticked; a
      refused wait changes nothing. */
  ghost predicate WaitMeans(k: K, r: K, ok: bool, s: nat, timeout: int) {
    && k.now.Some? && k.now.value < |r.tasks|
    && (ok <==> k.mode.sync && k.kstate != Locked)
    && if !ok then r == k
       else && WaitList(r, s) == WaitList(k, s) + [k.now.value] && s in r.syncs && Infinite(r.tasks[k.now.value])
            && r.tasks[k.now.value].wait == Wait(Some(s), timeout, Waiting)
            && forall x: nat :: x != s ==> WaitList(r, x) == WaitList(k, x)
  }

  lemma WaitEntry(k: K, s: nat, timeout: int)
    requires Inv(k) && Active(k) && timeout != 0 && timeout <= WAIT_INFINITE && !k.mode.hrt
    ensures Inv(WaitOn(k, s, timeout).0) && WaitMeans(k, WaitOn(k, s, timeout).0, WaitOn(k, s, timeout).1, s, timeout)
  {
    BlockKeeps(k, s, timeout);
    hide Core, Post;
  }

  /** The result is that of the one end since the wait began, and it is taken only once. */
  ghost predicate FinishMeans(k: K, r: K, res: WaitResult) {
    && k.now.Some? && r.now == k.now && k.now.value < |k.tasks| == |r.tasks| && r.log == k.log
    && (res == WaitFail <==> k.tasks[k.now.value].wait.state == Idle)
    && (res != WaitFail ==> exists a: nat, b: nat, how ::
          LastWait(r.log, k.now.value, a, b, how) && res == ResultOf(how))
    && FinishWait(r).1 == WaitFail
  }

  lemma FinishEntry(k: K)
    requires Inv(k) && Active(k)
    ensures Inv(FinishWait(k).0) && FinishMeans(k, FinishWait(k).0, FinishWait(k).1)
  {
    UnblockKeeps(k);
    hide Inv;
    var i := k.now.value;
    WaitFacts(k, i);
    if Over(k.tasks[i].wait.state) {
      var a, b := EndedAt(k.log, i);
      assert LastWait(k.log, i, a, b, k.tasks[i].wait.state);
    }
  }

  // ---- signals --------------------------------------------------------------------------------

  /** Waking all empties the list, waking one takes its first entry; exactly those waiters end as signalled, in
      list order, and no other task is touched. */
  ghost predicate WakeMeans(k: K, r: K, s: nat, everyone: bool) {
    var ws := WaitList(k, s);
    var woken := if !k.mode.sync || ws == [] then [] else if everyone then ws else ws[..1];
    && |r.tasks| == |k.tasks| && (k.mode.sync ==> WaitList(r, s) == ws[|woken|..])
    && r.log == k.log + Signals(woken)
    && forall i :: 0 <= i < |k.tasks| ==> r.tasks[i] == if i in woken then SignalTask(k.tasks[i]) else k.tasks[i]
  }

  lemma WakeEntry(k: K, s: nat, everyone: bool)
    requires Inv(k)
    ensures Shaped(k) && Inv(Signal(k, s, everyone)) && WakeMeans(k, Signal(k, s, everyone), s, everyone)
  {
    WakeKeeps(k, s, everyone);
    hide Core, WakeMeans, Signal;
    CoreShaped(k);
    if !k.mode.sync || WaitList(k, s) == [] {
      WakesNone(k, s, everyone);
    } else if everyone {
      WakesAll(k, s);
    } else {
      WakesFirst(k, s);
    }
  }

  lemma WakesNone(k: K, s: nat, everyone: bool)
    requires Shaped(k) && (!k.mode.sync || WaitList(k, s) == [])
    ensures WakeMeans(k, Signal(k, s, everyone), s, everyone)
  {
    hide SignalTask, EndWaitAndWake;
    assert Signal(k, s, everyone) == k && k.log + Signals([]) == k.log;
  }

  lemma WakesAll(k: K, s: nat)
    requires Inv(k) && k.mode.sync && WaitList(k, s) != []
    ensures Shaped(k) && WakeMeans(k, Signal(k, s, true), s, true)
  {
    forall i: nat | i < |k.tasks| ensures k.tasks[i].wait.sync == Some(s) <==> i in WaitList(k, s) {}
    hide Core, SignalTask, Signal;
    CoreShaped(k);
    WakeAllFifo(k, s);
  }

  lemma WakesFirst(k: K, s: nat)
    requires Inv(k) && k.mode.sync && WaitList(k, s) != []
    ensures Shaped(k) && WakeMeans(k, Signal(k, s, false), s, false)
  {
    WaitListWaiting(k, s);
    hide Core, SignalTask, EndWaitAndWake;
    CoreShaped(k);
    var ws := WaitList(k, s);
    assert ws[0] in ws;
    WakeFirst(k, ws, s);
    assert ws[..1] == [ws[0]] && ws[..1][1..] == [] && Signals(ws[..1]) == [WaitEnded(ws[0], Signaled)];
  }

  // ---- weights and time slices ----------------------------------------------------------------

  /** The effective weight becomes the greater of the old one and the offered one; the base weight stays. */
  ghost predicate InheritMeans(k: K, r: K, u: nat, w: int) {
    if k.mode.inherit && w != NO_WEIGHT && Find(k, u).Some?
    then var i := Find(k, u).value;
         && i < |k.tasks| == |r.tasks| && EffWeight(r.tasks[i]) == Max(EffWeight(k.tasks[i]), w)
         && BaseWeight(r.tasks[i]) == BaseWeight(k.tasks[i])
    else r == k
  }

  lemma InheritEntry(k: K, u: nat, w: int)
    requires Inv(k)
    ensures Inv(InheritWeight(k, u, w)) && InheritMeans(k, InheritWeight(k, u, w), u, w)
  {
    BoostKeeps(k, u, w);
    if Find(k, u).Some? { assert SlotInv(k, Find(k, u).value); }
    hide Core, Post, FindFrom;
  }

  /** The base weight becomes `w`, a boost above it stays in force, and the answer is the old base weight. */
  ghost predicate WeightMeans(k: K, r: K, res: int, u: nat, w: nat) {
    if k.mode.inherit && Find(k, u).Some?
    then var i := Find(k, u).value;
         && i < |k.tasks| == |r.tasks| && BaseWeight(r.tasks[i]) == w && res == BaseWeight(k.tasks[i])
         && EffWeight(r.tasks[i]) == Max(w, k.tasks[i].rtWeight)
    else r == k && res == NO_WEIGHT
  }

  lemma WeightEntry(k: K, u: nat, w: nat)
    requires Inv(k)
    ensures Inv(SetWeight(k, u, w).0) && WeightMeans(k, SetWeight(k, u, w).0, SetWeight(k, u, w).1, u, w)
  {
    RebaseKeeps(k, u, w);
    if Find(k, u).Some? { assert SlotInv(k, Find(k, u).value); }
    hide Core, Post, FindFrom;
  }

  /** The boost is dropped, unless a waiter weighs more than the boosted task: then it is that waiter's. */
  ghost predicate RestoreMeans(k: K, r: K, u: nat, s: Option<nat>)
    requires Shaped(k)
  {
    if k.mode.inherit && Find(k, u).Some?
    then var i := Find(k, u).value;
         var top := if s.None? then NO_WEIGHT else MaxWeight(k.tasks, WaitList(k, s.value));
         && i < |k.tasks| == |r.tasks| && BaseWeight(r.tasks[i]) == BaseWeight(k.tasks[i])
         && EffWeight(r.tasks[i]) == if top > EffWeight(k.tasks[i]) then top else BaseWeight(k.tasks[i])
    else r == k
  }

  lemma RestoreEntry(k: K, u: nat, s: Option<nat>)
    requires Inv(k)
    ensures Shaped(k) && Inv(RestoreWeight(k, u, s)) && RestoreMeans(k, RestoreWeight(k, u, s), u, s)
  {
    UnboostKeeps(k, u, s);
    if Find(k, u).Some? { assert SlotInv(k, Find(k, u).value); }
    hide Core, Post, FindFrom;
    CoreShaped(k);
  }

  /** The task starts a full slice of the new quantum; setting the answer again restores the old quantum. */
  ghost predicate QuantumMeans(k: K, r: K, res: int, u: nat, q: nat) {
    if k.mode.timeslice && Find(k, u).Some?
    then var i := Find(k, u).value;
         && i < |k.tasks| == |r.tasks| && r.tasks[i].ts == Slice(q, q) && res == k.tasks[i].ts.quantum >= 0
         && Find(r, u) == Some(i) && SetTimeSlice(r, u, res).0.tasks[i].ts.quantum == k.tasks[i].ts.quantum
    else r == k && res == NO_TIME_SLICE
  }

  lemma QuantumEntry(k: K, u: nat, q: nat)
    requires Inv(k)
    ensures Inv(SetTimeSlice(k, u, q).0) && QuantumMeans(k, SetTimeSlice(k, u, q).0, SetTimeSlice(k, u, q).1, u, q)
  {
    QuantumKeeps(k, u, q);
    if k.mode.timeslice && Find(k, u).Some? {
      var i, r := Find(k, u).value, SetTimeSlice(k, u, q).0;
      assert SlotInv(k, i);
      assert Distinct(r.tasks);
      FindIsUnique(r, u, i);
    }
    hide Core;
  }
}
