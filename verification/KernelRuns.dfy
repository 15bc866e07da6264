/** Runs of the kernel: events, the conditions under which they may occur, and the proof that the
    invariant holds in every state a run can reach. */
module KernelRuns {
  import opened KernelTypes
  import opened KernelSpec
  import opened KernelInv
  import opened KernelSync

  datatype Event =
    | Initialize
    | Add(u: User, hrt: Option<(int, int, int)>)
    | Remove(id: nat)
    | Expel(id: nat)                      // ScheduleTaskRemoval
    | Suspend(id: nat)
    | Resume(id: nat)
    | Cancel(id: nat)                     // CancelTaskWait, SleepCancel
    | SetLock(lock: bool, isr: bool)
    | Start(c: Choice)
    | Stop
    | TickBy(e: int, c: Choice)
    | Force(id: nat, c: Choice)
    | Nap(n: int)                         // Sleep
    | NapUntil(timestamp: int)            // SleepUntil
    | Yield(handled: bool)
    | Exit
    | Block(s: nat, timeout: int)         // Wait, up to the switch
    | Unblock                             // Wait, after the switch back
    | Wake(s: nat, everyone: bool)
    | Boost(id: nat, w: int)
    | Rebase(id: nat, base: nat)
    | Unboost(id: nat, sobj: Option<nat>)
    | Quantum(id: nat, q: nat)
    | Pause(suspend: bool)                // OnSuspend

  /** The current task is executing its own code: awake, on the CPU and with nothing pending. */
  ghost predicate Active(k: K) {
    && k.now.Some? && k.now.value < |k.tasks| && (k.fsm == Switching || k.fsm == Waking)
    && Busy(k.tasks[k.now.value]) && !Asleep(k.tasks[k.now.value])
    && !k.tasks[k.now.value].yieldPending && !k.tasks[k.now.value].removePending
  }

  /** When an event may occur. Task calls come from the task that is executing, the strategy obeys
      its contract, and in HRT mode no tick finds a completed job with a wake that is still pending. */
  ghost predicate Enabled(k: K, ev: Event)
    requires Shaped(k)
  {
    match ev
    case Initialize => k.kstate == Inactive
    case Remove(_) => k.now.None?
    case SetLock(lock, isr) => isr || Active(k) || k.kstate == Inactive || k.kstate == Ready
    case Start(c) => k.kstate == Ready && k.strat.all != {} && Fits(k, c) && LegalChoice(StartFrom(k, 0).strat, c)
    case Stop => k.mode.dynamic && k.fsm == Exiting
    case TickBy(e, c) => k.fsm != FsmNone && e >= 0 && BounceFree(k, 0, e) && Fits(k, c)
                         && LegalChoice(TickBody(k, e).strat, c)
    case Force(id, c) => k.now.Some? && Fits(k, c) &&
                         (ForceBody(k, id).Some? ==> LegalChoice(ForceBody(k, id).value.strat, c))
    case Nap(n) => Active(k) && 0 <= n <= WAIT_INFINITE
    case NapUntil(_) => Active(k)
    case Yield(_) => Active(k)
    case Exit => Active(k)
    case Block(s, timeout) => Active(k) && timeout != 0 && timeout <= WAIT_INFINITE && !k.mode.hrt
    case Unblock => Active(k)
    case Pause(_) => k.now.Some?
    case _ => true
  }

  ghost function Next(k: K, ev: Event): K
    requires Shaped(k) && Enabled(k, ev)
  {
    match ev
    case Initialize => k.(kstate := Ready)
    case Add(u, hrt) => AddTask(k, u, hrt).0
    case Remove(id) => RemoveTask(k, id)
    case Expel(id) => ScheduleTaskRemoval(k, id)
    case Suspend(id) => SuspendTask(k, id).0
    case Resume(id) => ResumeTask(k, id).0
    case Cancel(id) => CancelTaskWait(k, id)
    case SetLock(lock, isr) => SetSchedulerLock(k, lock, isr).0
    case Start(c) => OnStart(k, c)
    case Stop => OnStop(k)
    case TickBy(e, c) => Tick(k, e, c)
    case Force(id, c) => ForceSwitch(k, id, c)
    case Nap(n) => Sleep(k, n).0
    case NapUntil(timestamp) => SleepUntil(k, timestamp).0
    case Yield(handled) => SwitchToNext(k, handled)
    case Exit => ExitTask(k)
    case Block(s, timeout) => WaitOn(k, s, timeout).0
    case Unblock => FinishWait(k).0
    case Wake(s, everyone) => Signal(k, s, everyone)
    case Boost(id, w) => InheritWeight(k, id, w)
    case Rebase(id, w) => SetWeight(k, id, w).0
    case Unboost(id, s) => RestoreWeight(k, id, s)
    case Quantum(id, q) => SetTimeSlice(k, id, q).0
    case Pause(suspend) => OnSuspend(k, suspend)
  }

  // ---- platform events ------------------------------------------------------------------------

  /** The state after the sync objects were ticked. */
  lemma SyncPhase(k: K, e: int) returns (r: K)
    requires Inv(k) && e >= 0
    ensures r == UpdateSyncObjects(k.(ticks := k.ticks + e), e)
    ensures Core(r) && Shaped(r) && NowMid(r) && |r.tasks| == |k.tasks|
    ensures forall j :: 0 <= j < |r.tasks| ==> DoneInv(r, j)
    ensures forall j :: 0 <= j < |r.tasks| ==> (r.tasks[j].yieldPending ==> r.mode.noSleepYield)
    ensures r.now.Some? && r.fsm == Sleeping ==> !r.tasks[r.now.value].sleepPending
    ensures BounceFree(k, 0, e) ==> BounceFree(r, 0, e)
  {
    var k0 := k.(ticks := k.ticks + e);
    ClockKeeps(k, k0);
    SyncTick(k0, e);
    hide WaitsInv, Distinct, Replay, UpdateSyncObjects, BounceFree;
    r := UpdateSyncObjects(k0, e);
    forall j | 0 <= j < |r.tasks|
      ensures DoneInv(r, j) && (r.tasks[j].yieldPending ==> r.mode.noSleepYield)
    {
      assert DoneInv(k, j) && SlotInv(k, j) && r.tasks[j] == TickWait(k.tasks[j], e);
    }
    SyncBounce(k, r, e);
  }

  /** No HRT task waits, so the sync objects change nothing about the completed jobs. */
  lemma SyncBounce(k: K, r: K, e: int)
    requires Core(k) && |r.tasks| == |k.tasks| && r.mode == k.mode && r.now == k.now && r.fsm == k.fsm
    requires forall j :: 0 <= j < |k.tasks| ==> r.tasks[j] == TickWait(k.tasks[j], e)
    ensures BounceFree(k, 0, e) ==> BounceFree(r, 0, e)
  {
    hide WaitsInv, Distinct, Replay;
    if k.mode.hrt {
      forall j | 0 <= j < |k.tasks| ensures r.tasks[j] == k.tasks[j] { assert SlotInv(k, j); }
      assert r.tasks == k.tasks;
    }
  }

  /** The state after every slot was visited. */
  lemma SweepPhase(k: K, e: int) returns (r: K)
    requires Inv(k) && e >= 0 && BounceFree(k, 0, e)
    ensures r == UpdateTaskState(UpdateSyncObjects(k.(ticks := k.ticks + e), e), e).k
    ensures Core(r) && Shaped(r) && NowMid(r) && |r.tasks| == |k.tasks| && r.kstate == k.kstate
    ensures forall j :: 0 <= j < |r.tasks| ==> Settled(r, j)
    ensures forall j :: 0 <= j < |r.tasks| ==> !r.tasks[j].yieldPending
  {
    var k1 := SyncPhase(k, e);
    hide Core, UpdateSyncObjects, SweepFrom, Settled, DoneInv, BounceFree;
    var s := Sweep(k1, if k1.mode.tickless then TICKLESS_TICKS_MAX else 1);
    SweepKeeps(s, 0, e);
    SweepNoYield(s, 0, e);
    r := SweepFrom(s, 0, e).k;
  }

  /** The state OnTick leaves before it decides on a switch. */
  lemma TickBodyKeeps(k: K, e: int)
    requires Inv(k) && e >= 0 && BounceFree(k, 0, e)
    ensures Core(TickBody(k, e)) && NowMid(TickBody(k, e))
    ensures forall j :: 0 <= j < |k.tasks| ==> Settled(TickBody(k, e), j)
    ensures forall j :: 0 <= j < |k.tasks| ==> !TickBody(k, e).tasks[j].yieldPending
    ensures k.kstate != Locked ==> Fresh(TickBody(k, e))
  {
    var k2 := SweepPhase(k, e);
    hide Core, UpdateSyncObjects, UpdateTaskState, Settled, Fresh;
    TimesliceKeeps(k2, e);
  }

  lemma ClockKeeps(k: K, r: K)
    requires Core(k) && r == k.(ticks := r.ticks)
    ensures Core(r)
  {
    hide Replay;
    LinksFrame(k, r);
    forall j | 0 <= j < |r.tasks| ensures SlotInv(r, j) { SlotFrame(k, r, j); }
  }

  /** A tick consumes every pending yield. */
  lemma {:induction false} SweepNoYield(s: Sweep, i: nat, e: int)
    requires i <= |s.k.tasks|
    requires forall j :: 0 <= j < i ==> !s.k.tasks[j].yieldPending
    requires forall j :: 0 <= j < |s.k.tasks| ==> (s.k.tasks[j].yieldPending ==> s.k.mode.noSleepYield)
    ensures forall j :: 0 <= j < |s.k.tasks| ==> !SweepFrom(s, i, e).k.tasks[j].yieldPending
    decreases |s.k.tasks| - i
  {
    if i < |s.k.tasks| { SweepNoYield(SweepSlot(s, i, e), i + 1, e); }
  }

  lemma TickKeeps(k: K, e: int, c: Choice)
    requires Inv(k) && e >= 0 && BounceFree(k, 0, e) && Fits(k, c) && LegalChoice(TickBody(k, e).strat, c)
    ensures Inv(Tick(k, e, c))
  {
    TickBodyKeeps(k, e);
    var b := TickBody(k, e);
    hide WaitsInv, Distinct, Replay, SlotInv, TickBody;
    if b.kstate == Locked {
      forall j | 0 <= j < |b.tasks| ensures DoneInv(b, j) { assert Settled(b, j); }
    } else {
      FsmKeeps(b, c);
    }
  }

  lemma ForceKeeps(k: K, id: nat, c: Choice)
    requires Inv(k) && Fits(k, c)
    requires ForceBody(k, id).Some? ==> LegalChoice(ForceBody(k, id).value.strat, c)
    ensures Inv(ForceSwitch(k, id, c))
  {
    var b := ForceBody(k, id);
    if b.Some? {
      ForceBodyKeeps(k, id);
      hide Core, UpdateFsmState;
      FsmKeeps(b.value, c);
    }
  }

  lemma ForceBodyKeeps(k: K, id: nat)
    requires Inv(k) && ForceBody(k, id).Some?
    ensures var b := ForceBody(k, id).value;
            Core(b) && NowMid(b) && Fresh(b) && b.kstate != Locked
            && forall j :: 0 <= j < |b.tasks| ==> Settled(b, j)
  {
    hide WaitsInv, Distinct, Replay;
    var i := k.now.value;
    var b := ForceBody(k, id).value;
    assert SlotInv(k, i);
    var k1 := if k.kstate == Locked && Asleep(k.tasks[i]) then k.(kstate := Running) else k;
    UnlockKeeps(k);
    if Asleep(k.tasks[i]) {
      DeliverSleepKeeps(k1, i);
    } else {
      SetKeeps(k, i, k.tasks[i].(yieldPending := false));
    }
    forall j | 0 <= j < |b.tasks| ensures Settled(b, j) { assert SlotInv(k, j) && DoneInv(k, j); }
  }

  lemma UnlockKeeps(k: K)
    requires Core(k)
    ensures k.kstate == Locked ==> Core(k.(kstate := Running))
  {
    hide Replay;
    var r := k.(kstate := Running);
    LinksFrame(k, r);
    if k.kstate == Locked {
      forall j | 0 <= j < |r.tasks| ensures SlotInv(r, j) { SlotFrame(k, r, j); }
    }
  }
}
