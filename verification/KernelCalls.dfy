/** Every call of a task, an interrupt handler or the platform keeps the invariant. */
module KernelCalls {
  import opened KernelTypes
  import opened KernelSpec
  import opened KernelInv
  import opened KernelSync
  import opened KernelRuns

  // ---- generic updates of the full invariant --------------------------------------------------

  /** What the invariant asks of slot `i` when it is the current task. */
  ghost predicate NowOk(k: K, i: nat)
    requires i < |k.tasks|
  {
    k.now == Some(i) ==>
      && (k.fsm == Sleeping ==> Asleep(k.tasks[i]) && !k.tasks[i].sleepPending)
      && (k.kstate == Locked ==> !k.tasks[i].yieldPending || Asleep(k.tasks[i]))
      && (k.mode.hrt && k.fsm != Sleeping ==> !Asleep(k.tasks[i]) || k.tasks[i].sleepPending)
  }

  lemma SetInv(k: K, i: nat, t: Task)
    requires Inv(k) && i < |k.tasks|
    requires t.user == k.tasks[i].user && t.wait.sync == k.tasks[i].wait.sync
    requires var r := SetTask(k, i, t); SlotInv(r, i) && DoneInv(r, i) && NowOk(r, i)
    ensures Inv(SetTask(k, i, t))
  {
    SetKeeps(k, i, t);
    hide SlotInv, WaitsInv, Distinct, Replay;
    var r := SetTask(k, i, t);
    forall j | 0 <= j < |r.tasks| ensures DoneInv(r, j) { assert DoneInv(k, j); }
  }

  lemma SetTellInv(k: K, i: nat, t: Task, n: Note)
    requires Inv(k) && i < |k.tasks|
    requires t.user == k.tasks[i].user && t.wait.sync == k.tasks[i].wait.sync
    requires n.i == i && Legal(k.strat, n) && !n.Added? && !n.Removed? && !n.WaitBegun? && !n.WaitEnded?
    requires var r := Tell(SetTask(k, i, t), n); SlotInv(r, i) && DoneInv(r, i) && NowOk(r, i)
    ensures Inv(Tell(SetTask(k, i, t), n))
  {
    SetTellKeeps(k, i, t, n);
    hide SlotInv, WaitsInv, Distinct, Replay;
    var r := Tell(SetTask(k, i, t), n);
    forall j | 0 <= j < |r.tasks| ensures DoneInv(r, j) { assert DoneInv(k, j); }
  }

  /** Two writes to one slot are one write. */
  lemma SetTwice(k: K, i: nat, a: Task, b: Task)
    requires i < |k.tasks|
    ensures SetTask(SetTask(k, i, a), i, b) == SetTask(k, i, b)
  {
    assert k.tasks[i := a][i := b] == k.tasks[i := b];
  }

  /** Putting a slot to sleep and reporting it at once is one update. */
  lemma SetAndDeliver(k: K, i: nat, t: Task)
    requires i < |k.tasks|
    ensures DeliverSleep(SetTask(k, i, t), i)
         == Tell(SetTask(k, i, t.(sleepPending := false, wakePending := false)), Slept(i, EffWeight(t)))
  {
    SetTwice(k, i, t, t.(sleepPending := false, wakePending := false));
  }

  // ---- adding and removing --------------------------------------------------------------------

  lemma BindKeeps(k: K, i: nat, u: User, hrt: Option<(int, int, int)>)
    requires Inv(k) && i < |k.tasks| && !Busy(k.tasks[i]) && (hrt.Some? ==> HrtTimingOk(hrt.value) && k.now.None?)
    requires forall j :: 0 <= j < |k.tasks| ==> !Collides(k.tasks[j], u)
    ensures Inv(BindSlot(k, i, u, hrt))
  {
    var r := BindSlot(k, i, u, hrt);
    BindSlots(k, i, u, hrt);
    assert SlotInv(k, i);
    ReplayTell(k, Added(i, EffWeight(r.tasks[i])));
    BindLinks(k, i, u, hrt);
    hide SlotInv, WaitsInv, Distinct, Replay;
    forall j | 0 <= j < |r.tasks| ensures DoneInv(r, j) { assert DoneInv(k, j); }
  }

  lemma BindSlots(k: K, i: nat, u: User, hrt: Option<(int, int, int)>)
    requires Inv(k) && i < |k.tasks| && !Busy(k.tasks[i]) && (hrt.Some? ==> HrtTimingOk(hrt.value) && k.now.None?)
    ensures forall j :: 0 <= j < |k.tasks| ==> SlotInv(BindSlot(k, i, u, hrt), j)
    ensures !BindSlot(k, i, u, hrt).tasks[i].hrt.done
  {
    hide WaitsInv, Distinct, Replay;
    var r := BindSlot(k, i, u, hrt);
    assert SlotInv(k, i);
    forall j | 0 <= j < |r.tasks| ensures SlotInv(r, j) {
      if j != i { SlotFrame(k, r, j); }
    }
  }

  lemma BindLinks(k: K, i: nat, u: User, hrt: Option<(int, int, int)>)
    requires Inv(k) && i < |k.tasks| && !Busy(k.tasks[i])
    requires forall j :: 0 <= j < |k.tasks| ==> !Collides(k.tasks[j], u)
    ensures Distinct(BindSlot(k, i, u, hrt).tasks) && WaitsInv(BindSlot(k, i, u, hrt))
  {
    hide SlotInv, Replay;
    var r := BindSlot(k, i, u, hrt);
    forall j | 0 <= j < |k.tasks| ensures !Collides(k.tasks[j], u) {}
    forall s: nat ensures WaitList(r, s) == WaitList(k, s) {}
  }

  lemma AddKeeps(k: K, u: User, hrt: Option<(int, int, int)>)
    requires Inv(k)
    ensures Inv(AddTask(k, u, hrt).0)
  {
    var (res, slot) := TryAllocate(k, u);
    if slot.Some? && (hrt.Some? ==> HrtTimingOk(hrt.value) && k.now.None?) {
      BindKeeps(k, slot.value, u, hrt);
    }
  }

  lemma RemoveTaskKeeps(k: K, u: nat)
    requires Inv(k) && k.now.None?
    ensures Inv(RemoveTask(k, u))
  {
    var s := Find(k, u);
    if s.Some? {
      assert SlotInv(k, s.value);
      RemoveKeeps(k, s.value);
      hide SlotInv, WaitsInv, Distinct, Replay;
      var r := RemoveSlot(k, s.value);
      forall j | 0 <= j < |r.tasks| ensures DoneInv(r, j) { assert DoneInv(k, j); }
    }
  }

  /** Ending a wait changes the wait object of that slot and nothing else about the tasks. */
  lemma EndWaitFrame(k: K, i: nat, how: WaitState)
    requires i < |k.tasks|
    ensures var r := EndWait(k, i, how);
            && r == k.(tasks := r.tasks, waits := r.waits, strat := r.strat, log := r.log)
            && r.strat.all == k.strat.all && r.strat.filed == k.strat.filed
            && r.tasks == k.tasks[i := k.tasks[i].(wait := r.tasks[i].wait)] && !IsWaiting(r.tasks[i])
  {
  }

  /** Ending a wait without waking the task keeps the full invariant. */
  lemma EndWaitInv(k: K, i: nat, how: WaitState)
    requires Inv(k) && i < |k.tasks|
    requires how == Signaled || how == TimedOut || how == Cancelled
    ensures Inv(EndWait(k, i, how))
  {
    EndWaitKeeps(k, i, how);
    EndWaitFrame(k, i, how);
    assert PhaseInv(k);
    hide SlotInv, WaitsInv, Distinct, Replay, EndWait, LedgerInv, FlagInv, SliceInv;
    var r := EndWait(k, i, how);
    forall j | 0 <= j < |r.tasks| ensures DoneInv(r, j) { assert DoneInv(k, j); }
  }

  lemma ScheduleRemovalKeeps(k: K, i: nat)
    requires Inv(k) && i < |k.tasks| && Busy(k.tasks[i]) && k.now.Some? && k.mode.dynamic
    ensures Inv(ScheduleRemoval(k, i))
  {
    EndWaitInv(k, i, Cancelled);
    EndWaitFrame(k, i, Cancelled);
    hide Inv, EndWait, DeliverSleep, WorkDone, ScheduleSleep;
    ExpelKeeps(EndWait(k, i, Cancelled), i);
  }

  /** Marking a task that waits for nothing as exiting. */
  lemma ExpelKeeps(k: K, i: nat)
    requires Inv(k) && i < |k.tasks| && Busy(k.tasks[i]) && k.now.Some? && !IsWaiting(k.tasks[i]) && k.mode.dynamic
    ensures var t := WorkDone(k.mode, ScheduleSleep(k.tasks[i], WAIT_INFINITE)).(removePending := true);
            var r := SetTask(k, i, t);
            Inv(if k.now != Some(i) && t.sleepPending then DeliverSleep(r, i) else r)
  {
    hide WaitsInv, Distinct, Replay;
    assert SlotInv(k, i) && DoneInv(k, i);
    var t := WorkDone(k.mode, ScheduleSleep(k.tasks[i], WAIT_INFINITE)).(removePending := true);
    if k.now != Some(i) && t.sleepPending {
      SetAndDeliver(k, i, t);
      SetTellInv(k, i, t.(sleepPending := false, wakePending := false), Slept(i, EffWeight(t)));
    } else {
      SetInv(k, i, t);
    }
  }

  // ---- suspension and cancellation ------------------------------------------------------------

  lemma SuspendKeeps(k: K, u: nat)
    requires Inv(k)
    ensures Inv(SuspendTask(k, u).0)
  {
    hide WaitsInv, Distinct, Replay;
    var s := Find(k, u);
    if s.Some? {
      var i := s.value;
      var t := k.tasks[i];
      if t.removePending || t.suspended || t.suspendPending {
      } else if Asleep(t) {
        SuspendLaterKeeps(k, i);
      } else if k.kstate == Locked && k.now == Some(i) {
      } else if k.now.Some? && k.now != Some(i) {
        SuspendAwayKeeps(k, i);
      } else {
        SuspendHereKeeps(k, i);
      }
    }
  }

  lemma SuspendLaterKeeps(k: K, i: nat)
    requires Inv(k) && i < |k.tasks| && Busy(k.tasks[i]) && !k.tasks[i].removePending
    requires !k.tasks[i].suspended && Asleep(k.tasks[i])
    ensures Inv(SetTask(k, i, k.tasks[i].(suspendPending := true)))
  {
    hide WaitsInv, Distinct, Replay;
    assert SlotInv(k, i) && DoneInv(k, i);
    SetInv(k, i, k.tasks[i].(suspendPending := true));
  }

  lemma SuspendHereKeeps(k: K, i: nat)
    requires Inv(k) && i < |k.tasks| && Busy(k.tasks[i]) && (k.now.None? || k.now == Some(i)) && k.kstate != Locked
    requires !k.tasks[i].removePending && !k.tasks[i].suspended && !k.tasks[i].suspendPending && !Asleep(k.tasks[i])
    ensures Inv(SetTask(k, i, ScheduleSleep(k.tasks[i], WAIT_INFINITE).(suspended := true)))
  {
    hide WaitsInv, Distinct, Replay;
    assert SlotInv(k, i) && DoneInv(k, i);
    SetInv(k, i, ScheduleSleep(k.tasks[i], WAIT_INFINITE).(suspended := true));
  }

  /** Suspending an awake task that is not the current one takes it off the strategy at once. */
  lemma SuspendAwayKeeps(k: K, i: nat)
    requires Inv(k) && i < |k.tasks| && Busy(k.tasks[i]) && k.now.Some? && k.now != Some(i)
    requires !k.tasks[i].removePending && !k.tasks[i].suspended && !k.tasks[i].suspendPending && !Asleep(k.tasks[i])
    ensures Inv(DeliverSleep(SetTask(k, i, ScheduleSleep(k.tasks[i], WAIT_INFINITE).(suspended := true)), i))
  {
    hide WaitsInv, Distinct, Replay;
    assert SlotInv(k, i) && DoneInv(k, i);
    var t1 := ScheduleSleep(k.tasks[i], WAIT_INFINITE).(suspended := true);
    SetAndDeliver(k, i, t1);
    SetTellInv(k, i, t1.(sleepPending := false, wakePending := false), Slept(i, EffWeight(t1)));
  }

  lemma ResumeKeeps(k: K, u: nat)
    requires Inv(k)
    ensures Inv(ResumeTask(k, u).0)
  {
    hide WaitsInv, Distinct, Replay;
    var s := Find(k, u);
    if s.Some? {
      var i := s.value;
      var t := k.tasks[i];
      assert SlotInv(k, i) && DoneInv(k, i);
      if t.removePending {
      } else if t.suspended {
        ResumeSuspendedKeeps(k, i);
      } else if t.suspendPending {
        SetInv(k, i, t.(suspendPending := false));
      }
    }
  }

  lemma ResumeSuspendedKeeps(k: K, i: nat)
    requires Inv(k) && i < |k.tasks| && Busy(k.tasks[i]) && !k.tasks[i].removePending && k.tasks[i].suspended
    ensures Inv(SetTask(k, i, var t := k.tasks[i].(suspended := false); if Asleep(t) then WakeTask(t) else t))
  {
    hide WaitsInv, Distinct, Replay;
    var t := k.tasks[i].(suspended := false);
    assert SlotInv(k, i) && DoneInv(k, i);
    SetInv(k, i, if Asleep(t) then WakeTask(t) else t);
  }

  lemma EndWaitAndWakeInv(k: K, i: nat, how: WaitState)
    requires Inv(k) && i < |k.tasks| && IsWaiting(k.tasks[i])
    requires how == Signaled || how == TimedOut || how == Cancelled
    ensures Inv(EndWaitAndWake(k, i, how))
    ensures forall j :: 0 <= j < |k.tasks| && j != i ==> EndWaitAndWake(k, i, how).tasks[j] == k.tasks[j]
  {
    EndWaitInv(k, i, how);
    EndWaitFrame(k, i, how);
    assert SlotInv(k, i);
    hide WaitsInv, Distinct, Replay, EndWait;
    var k1 := EndWait(k, i, how);
    assert SlotInv(k1, i) && DoneInv(k1, i);
    SetInv(k1, i, WakeTask(k1.tasks[i].(wait := k1.tasks[i].wait.(time := 0))));
  }

  lemma CancelKeeps(k: K, u: nat)
    requires Inv(k)
    ensures Inv(CancelTaskWait(k, u))
  {
    hide WaitsInv, Distinct, Replay, EndWaitAndWake;
    var s := Find(k, u);
    if s.Some? {
      var i := s.value;
      var t := k.tasks[i];
      assert SlotInv(k, i) && DoneInv(k, i);
      if k.mode.sync && IsWaiting(t) {
        EndWaitAndWakeInv(k, i, Cancelled);
      } else if Asleep(t) && !t.suspended {
        SetInv(k, i, WakeTask(t));
      }
    }
  }

  // ---- kernel state ---------------------------------------------------------------------------

  /** Slots do not depend on the kernel state or the clock. */
  lemma KStateInv(k: K, s: KState)
    requires Inv(k) && PhaseInv(k.(kstate := s)) && NowInv(k.(kstate := s))
    ensures Inv(k.(kstate := s))
  {
    hide Replay;
    var r := k.(kstate := s);
    LinksFrame(k, r);
    forall j | 0 <= j < |r.tasks| ensures SlotInv(r, j) && DoneInv(r, j) {
      SlotFrame(k, r, j);
      assert DoneInv(k, j);
    }
  }

  lemma LockKeeps(k: K, lock: bool, isr: bool)
    requires Inv(k) && (isr || Active(k) || k.kstate == Inactive || k.kstate == Ready)
    ensures Inv(SetSchedulerLock(k, lock, isr).0)
  {
    if !k.mode.hrt && !isr && (k.kstate == Running || k.kstate == Locked) {
      KStateInv(k, if lock then Locked else Running);
    }
  }

  lemma PauseKeeps(k: K, suspend: bool)
    requires Inv(k) && k.now.Some?
    ensures Inv(OnSuspend(k, suspend))
  {
    var s := if suspend then if k.kstate == Running || k.kstate == Locked then Suspended else k.kstate
             else if k.kstate == Suspended then Running else k.kstate;
    KStateInv(k, s);
    hide WaitsInv, Distinct, Replay;
    var k1, i := k.(kstate := s), k.now.value;
    assert SlotInv(k1, i) && DoneInv(k1, i);
    if !Asleep(k.tasks[i]) { SetInv(k1, i, ScheduleSleep(k.tasks[i], YIELD_TICKS)); }
  }

  lemma StartFromKeeps(k: K, i: nat)
    requires Core(k) && k.now.None? && i <= |k.tasks|
    requires forall j :: 0 <= j < i ==> !k.tasks[j].sleepPending
    ensures Core(StartFrom(k, i)) && StartFrom(k, i).strat.all == k.strat.all
    ensures forall j :: 0 <= j < |k.tasks| ==>
              StartFrom(k, i).tasks[j] == if i <= j then k.tasks[j].(sleepPending := false) else k.tasks[j]
    decreases |k.tasks| - i
  {
    hide WaitsInv, Distinct, Replay;
    if i < |k.tasks| {
      var t := k.tasks[i].(sleepPending := false);
      if k.tasks[i].sleepPending {
        assert SlotInv(k, i);
        SetTellKeeps(k, i, t, Slept(i, EffWeight(t)));
        StartFromKeeps(Tell(SetTask(k, i, t), Slept(i, EffWeight(t))), i + 1);
      } else {
        StartFromKeeps(k, i + 1);
      }
    }
  }

  lemma StartKeeps(k: K, c: Choice)
    requires Inv(k) && k.kstate == Ready && k.strat.all != {} && Fits(k, c)
    requires LegalChoice(StartFrom(k, 0).strat, c)
    ensures Inv(OnStart(k, c))
  {
    StartFromKeeps(k, 0);
    hide WaitsInv, Distinct, Replay, StartFrom;
    var k1 := StartFrom(k, 0);
    var r := OnStart(k, c);
    assert |k.strat.all| != 0;
    if c.next.Some? {
      assert SlotInv(k1, c.next.value);
      RetargetKeeps(k1, c.next, Switching, Running);
    } else {
      assert SlotInv(k1, c.first);
      RetargetKeeps(k1, Some(c.first), Sleeping, Running);
    }
    StartDone(k, c);
  }

  lemma StartDone(k: K, c: Choice)
    requires Inv(k) && k.kstate == Ready && k.strat.all != {} && Fits(k, c)
    requires LegalChoice(StartFrom(k, 0).strat, c)
    ensures forall j :: 0 <= j < |OnStart(k, c).tasks| ==> DoneInv(OnStart(k, c), j)
  {
    StartFromKeeps(k, 0);
    hide WaitsInv, Distinct, Replay, StartFrom;
    var r := OnStart(k, c);
    forall j | 0 <= j < |r.tasks| ensures DoneInv(r, j) { assert DoneInv(k, j); }
  }

  lemma StopKeeps(k: K)
    requires Inv(k) && k.fsm == Exiting
    ensures Inv(OnStop(k))
  {
    if k.mode.dynamic {
      hide Replay;
      var r := OnStop(k);
      LinksFrame(k, r);
      forall j | 0 <= j < |r.tasks| ensures SlotInv(r, j) && DoneInv(r, j) {
        assert SlotInv(k, j) && DoneInv(k, j);
      }
    }
  }

  // ---- calls of the running task --------------------------------------------------------------

  lemma NapKeeps(k: K, n: int)
    requires Inv(k) && Active(k) && 0 <= n <= WAIT_INFINITE && (n == 0 ==> !k.mode.hrt)
    ensures Inv(OnTaskSleep(k, n).0)
  {
    hide WaitsInv, Distinct, Replay;
    var i := k.now.value;
    var t := WorkDone(k.mode, k.tasks[i]);
    assert SlotInv(k, i) && DoneInv(k, i);
    SetInv(k, i, if n > 0 then ScheduleSleep(t, n) else t);
  }

  lemma NapUntilKeeps(k: K, timestamp: int)
    requires Inv(k) && Active(k)
    ensures Inv(SleepUntil(k, timestamp).0)
  {
    hide WaitsInv, Distinct, Replay;
    var i := k.now.value;
    assert SlotInv(k, i) && DoneInv(k, i);
    if !k.mode.hrt && k.kstate != Locked && timestamp - k.ticks > 0 {
      SetInv(k, i, ScheduleSleep(k.tasks[i], Min(timestamp - k.ticks, WAIT_INFINITE)));
    }
  }

  lemma YieldKeeps(k: K, handled: bool)
    requires Inv(k) && Active(k)
    ensures Inv(SwitchToNext(k, handled))
  {
    if k.kstate == Locked {
    } else if k.mode.noSleepYield && !k.mode.hrt {
      YieldNoteKeeps(k, handled);
    } else {
      NapKeeps(k, YIELD_TICKS);
    }
  }

  lemma YieldNoteKeeps(k: K, handled: bool)
    requires Inv(k) && Active(k) && k.kstate != Locked && k.mode.noSleepYield && !k.mode.hrt
    ensures Inv(SwitchToNext(k, handled))
  {
    hide WaitsInv, Distinct, Replay;
    var i := k.now.value;
    assert SlotInv(k, i) && DoneInv(k, i);
    var t := k.tasks[i];
    var t1 := if handled then Reload(t.(yieldPending := true)) else ScheduleSleep(t, YIELD_TICKS);
    SetTellInv(k, i, t1, Yielded(i));
  }

  lemma UnblockKeeps(k: K)
    requires Inv(k) && Active(k)
    ensures Inv(FinishWait(k).0)
  {
    hide WaitsInv, Distinct, Replay;
    var i := k.now.value;
    assert SlotInv(k, i) && DoneInv(k, i);
    SetInv(k, i, k.tasks[i].(wait := k.tasks[i].wait.(state := Idle)));
  }

  lemma BlockKeeps(k: K, s: nat, timeout: int)
    requires Inv(k) && Active(k) && timeout != 0 && timeout <= WAIT_INFINITE && !k.mode.hrt
    ensures Inv(WaitOn(k, s, timeout).0)
  {
    if k.mode.sync && k.kstate != Locked {
      var i := k.now.value;
      var r := WaitOn(k, s, timeout).0;
      assert SlotInv(k, i);
      var t := ScheduleSleep(k.tasks[i].(wait := Wait(Some(s), timeout, Waiting)), WAIT_INFINITE);
      assert r.tasks == k.tasks[i := t];
      ReplayTell(k, WaitBegun(i));
      BlockLinks(k, s, timeout);
      BlockSlots(k, s, timeout);
      hide SlotInv, WaitsInv, Replay;
      forall j | 0 <= j < |r.tasks| ensures DoneInv(r, j) { assert DoneInv(k, j); }
    }
  }

  lemma BlockLinks(k: K, s: nat, timeout: int)
    requires Inv(k) && Active(k) && !IsWaiting(k.tasks[k.now.value]) && k.mode.sync && k.kstate != Locked
    ensures WaitsInv(WaitOn(k, s, timeout).0)
  {
    hide SlotInv, Replay, Distinct;
    var i := k.now.value;
    var r := WaitOn(k, s, timeout).0;
    forall x: nat ensures WaitList(r, x) == if x == s then WaitList(k, s) + [i] else WaitList(k, x) {}
    forall x: nat ensures i !in WaitList(k, x) {
      assert k.tasks[i].wait.sync == Some(x) <==> i in WaitList(k, x);
    }
    forall j: nat, x: nat | j < |r.tasks| ensures r.tasks[j].wait.sync == Some(x) <==> j in WaitList(r, x) {
      assert k.tasks[j].wait.sync == Some(x) <==> j in WaitList(k, x);
    }
  }

  lemma BlockSlots(k: K, s: nat, timeout: int)
    requires Inv(k) && Active(k) && timeout <= WAIT_INFINITE && !k.mode.hrt && k.mode.sync && k.kstate != Locked
    ensures forall j :: 0 <= j < |k.tasks| ==> SlotInv(WaitOn(k, s, timeout).0, j)
  {
    hide WaitsInv, Replay, Distinct;
    var i := k.now.value;
    var r := WaitOn(k, s, timeout).0;
    assert SlotInv(k, i);
    forall j | 0 <= j < |r.tasks| ensures SlotInv(r, j) {
      if j != i { SlotFrame(k, r, j); }
    }
  }

  // ---- signals --------------------------------------------------------------------------------

  lemma WakeEachKeeps(k: K, ws: seq<nat>)
    requires Inv(k) && AllWaiting(k, ws)
    ensures Inv(WakeEach(k, ws))
    decreases |ws|
  {
    if ws != [] {
      TailWaiting(k, ws);
      EndWaitAndWakeInv(k, ws[0], Signaled);
      var k1 := EndWaitAndWake(k, ws[0], Signaled);
      assert Shaped(k1);
      hide Inv, EndWaitAndWake;
      WakeEachKeeps(k1, ws[1..]);
    }
  }

  lemma WakeKeeps(k: K, s: nat, everyone: bool)
    requires Inv(k)
    ensures Inv(Signal(k, s, everyone))
  {
    WaitListWaiting(k, s);
    var ws := WaitList(k, s);
    WakeEachKeeps(k, ws);
    if ws != [] {
      TailWaiting(k, ws);
      hide Core, EndWaitAndWake;
      EndWaitAndWakeInv(k, ws[0], Signaled);
    }
  }

  // ---- weights and time slices ----------------------------------------------------------------

  lemma ReweighKeeps(k: K, i: nat, t: Task)
    requires Inv(k) && i < |k.tasks| && Busy(k.tasks[i])
    requires t == k.tasks[i].(rtWeight := t.rtWeight, baseWeight := t.baseWeight)
    requires (t.rtWeight == NO_WEIGHT || t.rtWeight > BaseWeight(t)) && BaseWeight(t) >= 0
    ensures Inv(Tell(SetTask(k, i, t), Reweighed(i, EffWeight(k.tasks[i]), EffWeight(t))))
  {
    hide WaitsInv, Distinct, Replay;
    assert SlotInv(k, i) && DoneInv(k, i);
    SetTellInv(k, i, t, Reweighed(i, EffWeight(k.tasks[i]), EffWeight(t)));
  }

  lemma BoostKeeps(k: K, u: nat, w: int)
    requires Inv(k)
    ensures Inv(InheritWeight(k, u, w))
  {
    var s := Find(k, u);
    if k.mode.inherit && w != NO_WEIGHT && s.Some? && EffWeight(k.tasks[s.value]) < w {
      assert SlotInv(k, s.value);
      ReweighKeeps(k, s.value, k.tasks[s.value].(rtWeight := w));
    }
  }

  lemma RebaseKeeps(k: K, u: nat, w: nat)
    requires Inv(k)
    ensures Inv(SetWeight(k, u, w).0)
  {
    var s := Find(k, u);
    if k.mode.inherit && s.Some? {
      assert SlotInv(k, s.value);
      var t := k.tasks[s.value];
      ReweighKeeps(k, s.value, t.(baseWeight := w, rtWeight := if t.rtWeight <= w then NO_WEIGHT else t.rtWeight));
    }
  }

  lemma UnboostKeeps(k: K, u: nat, sobj: Option<nat>)
    requires Inv(k)
    ensures Inv(RestoreWeight(k, u, sobj))
  {
    var s := Find(k, u);
    if k.mode.inherit && s.Some? {
      assert SlotInv(k, s.value);
      var t := k.tasks[s.value];
      var boost := if sobj.None? then NO_WEIGHT
                   else var w := MaxWeight(k.tasks, WaitList(k, sobj.value));
                        if w > EffWeight(t) then w else NO_WEIGHT;
      ReweighKeeps(k, s.value, t.(rtWeight := boost));
    }
  }

  lemma QuantumKeeps(k: K, u: nat, q: nat)
    requires Inv(k)
    ensures Inv(SetTimeSlice(k, u, q).0)
  {
    hide WaitsInv, Distinct, Replay;
    var s := Find(k, u);
    if k.mode.timeslice && s.Some? {
      assert SlotInv(k, s.value) && DoneInv(k, s.value);
      SetInv(k, s.value, k.tasks[s.value].(ts := Slice(q, q)));
    }
  }

  // ---- all events, all runs -------------------------------------------------------------------

  lemma InitializeKeeps(k: K)
    requires Inv(k) && k.kstate == Inactive
    ensures Inv(k.(kstate := Ready))
  {
    KStateInv(k, Ready);
  }

  /** Every entry point keeps the invariant. */
  lemma NextKeeps(k: K, ev: Event)
    requires Inv(k) && Enabled(k, ev)
    ensures Inv(Next(k, ev))
  {
    hide Inv, UpdateFsmState, TickBody, ForceBody, StartFrom;
    match ev
    case Initialize => InitializeKeeps(k);
    case Add(u, hrt) => AddKeeps(k, u, hrt);
    case Remove(id) => RemoveTaskKeeps(k, id);
    case Expel(id) =>
      if k.mode.dynamic && Find(k, id).Some? && k.now.Some? { ScheduleRemovalKeeps(k, Find(k, id).value); }
    case Suspend(id) => SuspendKeeps(k, id);
    case Resume(id) => ResumeKeeps(k, id);
    case Cancel(id) => CancelKeeps(k, id);
    case SetLock(lock, isr) => LockKeeps(k, lock, isr);
    case Start(c) => StartKeeps(k, c);
    case Stop => StopKeeps(k);
    case TickBy(e, c) => TickKeeps(k, e, c);
    case Force(id, c) => ForceKeeps(k, id, c);
    case Nap(n) => if !k.mode.hrt { NapKeeps(k, n); }
    case NapUntil(timestamp) => NapUntilKeeps(k, timestamp);
    case Yield(handled) => YieldKeeps(k, handled);
    case Exit => if k.mode.dynamic { ScheduleRemovalKeeps(k, k.now.value); }
    case Block(s, timeout) => BlockKeeps(k, s, timeout);
    case Unblock => UnblockKeeps(k);
    case Wake(s, everyone) => WakeKeeps(k, s, everyone);
    case Boost(id, w) => BoostKeeps(k, id, w);
    case Rebase(id, base) => RebaseKeeps(k, id, base);
    case Unboost(id, sobj) => UnboostKeeps(k, id, sobj);
    case Quantum(id, q) => QuantumKeeps(k, id, q);
    case Pause(suspend) => PauseKeeps(k, suspend);
  }
}
