/** The end of a scheduling session: once every task is exiting, the kernel stops. */
module KernelExit {
  import opened KernelTypes
  import opened KernelSpec
  import opened KernelInv
  import opened KernelSync
  import opened KernelRuns
  import opened KernelTick
  import opened KernelCalls
  import opened KernelFrame
  import opened KernelSched

  /** Every bound task is asleep and pending removal. */
  ghost predicate AllExiting(k: K) {
    forall j :: 0 <= j < |k.tasks| && Busy(k.tasks[j]) ==> k.tasks[j].removePending && Asleep(k.tasks[j])
  }

  /** No slot after `n` holds a task. */
  ghost predicate LastSlot(k: K, n: nat) {
    forall j :: n < j < |k.tasks| ==> !Busy(k.tasks[j])
  }

  lemma OnlyOne(k: K, n: nat)
    requires Core(k) && n < |k.tasks| && Busy(k.tasks[n])
    requires forall j :: 0 <= j < n ==> !Busy(k.tasks[j])
    ensures |k.strat.all| == 1 <==> LastSlot(k, n)
  {
    hide WaitsInv, Distinct, Replay;
    forall j | 0 <= j < |k.tasks| ensures j in k.strat.all <==> Busy(k.tasks[j]) { assert SlotInv(k, j); }
    if |k.strat.all| == 1 { SingletonSet(k.strat.all, n); }
    if LastSlot(k, n) { assert k.strat.all == {n}; }
  }

  /** The sweep frees every exiting slot; the current task is freed only as the last one under the
      sleep trap. */
  lemma {:induction false} ExitSweep(s: Sweep, i: nat, e: int, n: nat)
    requires Core(s.k) && i <= |s.k.tasks| && e >= 0 && s.k.mode.dynamic && s.k.now == Some(n) && n < |s.k.tasks|
    requires forall j :: i <= j < |s.k.tasks| ==> DoneInv(s.k, j)
    requires forall j :: i <= j < |s.k.tasks| && Busy(s.k.tasks[j]) ==>
               s.k.tasks[j].removePending && Asleep(s.k.tasks[j])
    requires forall j :: 0 <= j < i && j != n ==> !Busy(s.k.tasks[j])
    requires i <= n ==> Busy(s.k.tasks[n])
    requires BounceFree(s.k, i, e)
    ensures var r := SweepFrom(s, i, e).k;
            && (forall j :: 0 <= j < |r.tasks| && j != n ==> !Busy(r.tasks[j]))
            && r.tasks[n] == (if i <= n
                              then SlotTask(s.k.mode, s.k.tasks[n], s.k.fsm == Sleeping && LastSlot(s.k, n), e)
                              else s.k.tasks[n])
    decreases |s.k.tasks| - i
  {
    hide Core, TickSlot;
    if i < |s.k.tasks| {
      if i == n { OnlyOne(s.k, n); }
      SparedSlot(s.k, i, e);
      TickSlotKeeps(s.k, i, e);
      BounceStep(s.k, i, e);
      TickSlotIs(s.k, i, e);
      var s1 := SweepSlot(s, i, e);
      forall j | i < j < |s.k.tasks| ensures DoneInv(s1.k, j) { assert DoneInv(s.k, j); }
      if i != n { FreedSlot(s.k, i, e); }
      hide SlotTask, DoneInv, BounceFree, Spared;
      assert i <= n ==> forall j :: n < j < |s.k.tasks| ==> s1.k.tasks[j] == s.k.tasks[j];
      ExitSweep(s1, i + 1, e, n);
    }
  }

  lemma FreedSlot(k: K, i: nat, e: int)
    requires Core(k) && i < |k.tasks| && k.mode.dynamic && k.now != Some(i)
    requires Busy(k.tasks[i]) ==> k.tasks[i].removePending && Asleep(k.tasks[i])
    ensures !Busy(SlotTask(k.mode, k.tasks[i], Removable(k, i), e))
  {
    hide WaitsInv, Distinct, Replay;
    assert SlotInv(k, i);
  }

  /** No exiting task waits for anything, so ticking the sync objects changes no task. */
  lemma ExitSync(k: K, e: int) returns (k1: K)
    requires Inv(k) && e >= 0 && AllExiting(k)
    ensures Shaped(k) && k1 == UpdateSyncObjects(k.(ticks := k.ticks + e), e)
    ensures BounceFree(k, 0, e) ==> BounceFree(k1, 0, e)
    ensures Core(k1) && k1.tasks == k.tasks && forall j :: 0 <= j < |k1.tasks| ==> DoneInv(k1, j)
    ensures k.now.Some? ==> k.now.value < |k.tasks| && Busy(k.tasks[k.now.value])
  {
    k1 := SyncPhase(k, e);
    var k0 := k.(ticks := k.ticks + e);
    ClockKeeps(k, k0);
    SyncTick(k0, e);
    hide WaitsInv, Distinct, Replay, UpdateSyncObjects;
    forall j | 0 <= j < |k.tasks| ensures k1.tasks[j] == k.tasks[j] { assert SlotInv(k, j); }
    if k.now.Some? { assert SlotInv(k, k.now.value); }
  }

  /** One tick of a kernel in which every task is exiting. */
  lemma ExitBody(k: K, e: int, n: nat)
    requires Inv(k) && e >= 0 && BounceFree(k, 0, e) && k.mode.dynamic && k.now == Some(n) && AllExiting(k)
    ensures Shaped(k) && n < |k.tasks|
    ensures var b := TickBody(k, e);
            && (forall j :: 0 <= j < |b.tasks| && j != n ==> !Busy(b.tasks[j]))
            && b.tasks[n] == SlotTask(k.mode, k.tasks[n], k.fsm == Sleeping && LastSlot(k, n), e).(ts := b.tasks[n].ts)
  {
    hide Core, UpdateSyncObjects, SweepFrom, UpdateTimeslice, TickWait, SlotTask, DoneInv, BounceFree;
    var k1 := ExitSync(k, e);
    assert LastSlot(k1, n) == LastSlot(k, n);
    ExitSweep(Sweep(k1, if k1.mode.tickless then TICKLESS_TICKS_MAX else 1), 0, e, n);
    var k2 := UpdateTaskState(k1, e).k;
    forall j | 0 <= j < |k.tasks| ensures Busy(TickBody(k, e).tasks[j]) == Busy(k2.tasks[j]) { SliceFrame(k2, e, j); }
    SliceFrame(k2, e, n);
  }

  /** The first tick does not wake the current task: its entry tick is due, it is parked, it sleeps
      longer, or it is the last slot and the sleep trap is active. */
  ghost predicate StaysDown(k: K, e: int, n: nat)
    requires n < |k.tasks|
  {
    var t := k.tasks[n];
    || (t.sleepPending && !t.wakePending) || Infinite(t) || t.suspendPending || t.sleep + e < 0
    || (k.fsm == Sleeping && LastSlot(k, n))
  }

  /** After the first tick: stopped, or the current task alone is left, down or up. */
  lemma FirstTick(k: K, e: int, c: Choice, n: nat)
    requires Inv(k) && Enabled(k, TickBy(e, c)) && k.mode.dynamic && k.kstate != Locked
    requires k.now == Some(n) && n < |k.tasks| && AllExiting(k)
    ensures var r := Tick(k, e, c);
            && Inv(r) && r.kstate != Locked && r.mode == k.mode
            && (r.fsm == Exiting ==> StaysDown(k, e, n))
            && (r.fsm != Exiting ==>
                  && r.now == Some(n) && LastSlot(r, n) && Busy(r.tasks[n]) && r.tasks[n].removePending
                  && (StaysDown(k, e, n) ==> r.fsm == Sleeping && AllExiting(r))
                  && (!StaysDown(k, e, n) ==> !Asleep(r.tasks[n])))
  {
    hide Core, TickBody, UpdateFsmState;
    CoreShaped(k);
    TickKeeps(k, e, c);
    TickBodyKeeps(k, e);
    BodyFrame(k, e);
    ExitBody(k, e, n);
    TickConserves(k, e, c);
    var b := TickBody(k, e);
    ExitLedger(b, n);
    BoundNow(k, n);
    FsmKState(b, c);
    if Busy(b.tasks[n]) { ExitFsm(b, c, n); }
  }

  lemma ExitLedger(b: K, n: nat)
    requires Core(b) && n < |b.tasks| && forall j :: 0 <= j < |b.tasks| && j != n ==> !Busy(b.tasks[j])
    ensures b.strat.all == if Busy(b.tasks[n]) then {n} else {}
  {
    hide WaitsInv, Distinct, Replay;
    forall j | 0 <= j < |b.tasks| ensures j in b.strat.all <==> Busy(b.tasks[j]) { assert SlotInv(b, j); }
    assert b.strat.all == if Busy(b.tasks[n]) then {n} else {};
  }

  lemma ExitFsm(b: K, c: Choice, n: nat)
    requires Core(b) && Fits(b, c) && LegalChoice(b.strat, c) && b.now == Some(n) && b.mode.dynamic
    requires b.strat.all == {n} && Settled(b, n) && b.tasks[n].removePending
    ensures var r := UpdateFsmState(b, c); r == b.(fsm := r.fsm) && r.fsm != Exiting
    ensures UpdateFsmState(b, c).fsm == Sleeping <==> Asleep(b.tasks[n])
  {
    hide WaitsInv, Distinct, Replay;
    assert SlotInv(b, n);
  }

  /** Once every task is pending removal, the kernel reaches the exiting state within two unlocked
      ticks if and only if the first of them does not wake the current task. */
  lemma ExitsWithinTwoTicks(k: K, e1: int, c1: Choice, e2: int, c2: Choice, n: nat)
    requires Inv(k) && Enabled(k, TickBy(e1, c1)) && k.mode.dynamic && k.kstate != Locked
    requires k.now == Some(n) && n < |k.tasks| && AllExiting(k)
    requires Shaped(Tick(k, e1, c1)) && Enabled(Tick(k, e1, c1), TickBy(e2, c2))
    ensures Tick(k, e1, c1).fsm == Exiting || Tick(Tick(k, e1, c1), e2, c2).fsm == Exiting <==> StaysDown(k, e1, n)
  {
    hide Core, Tick, TickBody, LastSlot;
    CoreShaped(k);
    FirstTick(k, e1, c1, n);
    var r := Tick(k, e1, c1);
    if r.fsm != Exiting {
      if StaysDown(k, e1, n) {
        SecondTickStops(r, e2, c2, n);
      } else {
        SecondTickRuns(r, e2, c2, n);
      }
    }
  }

  lemma SecondTickStops(r: K, e: int, c: Choice, n: nat)
    requires Inv(r) && Enabled(r, TickBy(e, c)) && r.mode.dynamic && r.kstate != Locked && r.fsm == Sleeping
    requires r.now == Some(n) && n < |r.tasks| && AllExiting(r) && LastSlot(r, n)
    ensures Tick(r, e, c).fsm == Exiting
  {
    hide Core, TickBody, UpdateFsmState;
    CoreShaped(r);
    TickBodyKeeps(r, e);
    ExitBody(r, e, n);
    ExitLedger(TickBody(r, e), n);
    assert !Busy(TickBody(r, e).tasks[n]) by { BoundNow(r, n); }
    TickConserves(r, e, c);
  }

  lemma BoundNow(r: K, n: nat)
    requires Inv(r) && r.now == Some(n)
    ensures n < |r.tasks| && Busy(r.tasks[n])
  {
    assert SlotInv(r, n);
  }

  /** An awake task that is pending removal is not removed by a tick. */
  lemma SecondTickRuns(r: K, e: int, c: Choice, n: nat)
    requires Inv(r) && Enabled(r, TickBy(e, c)) && r.mode.dynamic && r.kstate != Locked
    requires r.now == Some(n) && n < |r.tasks| && Busy(r.tasks[n]) && !Asleep(r.tasks[n])
    ensures Tick(r, e, c).fsm != Exiting && Busy(TickBody(r, e).tasks[n])
  {
    assert SlotInv(r, n);
    TickBodyKeeps(r, e);
    TickTask(r, e, n);
    TickConserves(r, e, c);
    var b := TickBody(r, e);
    hide WaitsInv, Distinct, Replay, TickBody;
    assert SlotInv(b, n);
  }

  /** Cancelling an exiting task that has not been taken off yet breaks its exit: the next tick
      leaves it bound, awake and in the runnable set, still marked for removal. */
  lemma CancelledExitSurvives(k: K, c: Choice, n: nat)
    requires Inv(k) && !k.mode.hrt && k.now == Some(n) && n < |k.tasks| && k.fsm != Sleeping
    requires k.tasks[n].removePending && k.tasks[n].sleepPending && !k.tasks[n].suspended && !k.tasks[n].suspendPending
    ensures Busy(k.tasks[n])
    ensures var k1 := CancelTaskWait(k, k.tasks[n].user.value.id);
            && Inv(k1)
            && var b := TickBody(k1, 1);
               Busy(b.tasks[n]) && b.tasks[n].removePending && !Asleep(b.tasks[n]) && n in b.strat.filed
  {
    BoundNow(k, n);
    assert SlotInv(k, n);
    var k1 := CancelTaskWait(k, k.tasks[n].user.value.id);
    CancelExiting(k, n);
    CancelKeeps(k, k.tasks[n].user.value.id);
    hide WaitsInv, Distinct, Replay, CancelTaskWait, TickBody;
    TickBodyKeeps(k1, 1);
    WokenStays(k1, n);
    assert SlotInv(TickBody(k1, 1), n);
  }

  lemma CancelExiting(k: K, n: nat)
    requires Inv(k) && n < |k.tasks| && Busy(k.tasks[n]) && k.tasks[n].removePending && k.tasks[n].sleepPending
    requires !k.tasks[n].suspended
    ensures var k1 := CancelTaskWait(k, k.tasks[n].user.value.id);
            k1 == SetTask(k, n, WakeTask(k.tasks[n]))
  {
    hide WaitsInv, Replay;
    assert SlotInv(k, n);
    FindIsUnique(k, k.tasks[n].user.value.id, n);
  }

  lemma WokenStays(k: K, n: nat)
    requires Inv(k) && k.now == Some(n) && n < |k.tasks| && k.fsm != Sleeping && !k.tasks[n].suspendPending
    requires k.tasks[n].sleep == -1 && k.tasks[n].sleepPending && k.tasks[n].wakePending && k.tasks[n].removePending
    ensures Shaped(k)
    ensures var t := TickBody(k, 1).tasks[n]; !Asleep(t) && t.removePending && Busy(t)
  {
    hide WaitsInv, Distinct, Replay, UpdateSyncObjects, SweepFrom, UpdateTimeslice;
    BoundNow(k, n);
    CoreShaped(k);
    var k0 := k.(ticks := k.ticks + 1);
    ClockKeeps(k, k0);
    SyncTick(k0, 1);
    var k1 := UpdateSyncObjects(k0, 1);
    assert SlotInv(k, n);
    SweepNow(Sweep(k1, if k1.mode.tickless then TICKLESS_TICKS_MAX else 1), 0, 1, n);
    SliceFrame(UpdateTaskState(k1, 1).k, 1, n);
  }

  /** The current task is not freed while the sleep trap is inactive. */
  lemma {:induction false} SweepNow(s: Sweep, i: nat, e: int, n: nat)
    requires i <= |s.k.tasks| && n < |s.k.tasks| && s.k.now == Some(n) && s.k.fsm != Sleeping
    ensures SweepFrom(s, i, e).k.tasks[n] == if i <= n then SlotTask(s.k.mode, s.k.tasks[n], false, e) else s.k.tasks[n]
    decreases |s.k.tasks| - i
  {
    hide TickSlot, SlotTask;
    if i < |s.k.tasks| {
      TickSlotIs(s.k, i, e);
      SweepNow(SweepSlot(s, i, e), i + 1, e, n);
    }
  }
}
