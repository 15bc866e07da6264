/** The tick seen from one slot: what becomes of the task, and which calls the strategy receives. */
module KernelTick {
  import opened KernelTypes
  import opened KernelSpec
  import opened KernelInv
  import opened KernelSync
  import opened KernelRuns

  /** The task a tick leaves in a slot that held `t`. */
  function SlotTask(m: Mode, t: Task, removable: bool, e: int): Task {
    var t1 := if m.noSleepYield then t.(yieldPending := false) else t;
    if !Asleep(t) then
      if m.hrt && Busy(t) then t1.(hrt := t.hrt.(duration := t.hrt.duration + e)) else t1
    else if m.dynamic && t.removePending && removable then Unbind(t1)
    else
      var t2 := if t.sleepPending then t1.(sleepPending := false, wakePending := false) else t1;
      if !Advances(t) then t2
      else if t.suspendPending && t.sleep + e >= 0 then CommitSuspend(t2)
      else t2.(sleep := t.sleep + e)
  }

  /** The calls the strategy receives for that slot. */
  function SlotNotes(m: Mode, i: nat, t: Task, removable: bool, e: int): seq<Note> {
    if !Asleep(t) then
      if m.hrt && Busy(t) && t.hrt.duration + e > t.hrt.deadline then [Missed(i)] else []
    else if m.dynamic && t.removePending && removable then [Removed(i, EffWeight(t))]
    else
      (if t.sleepPending then [Slept(i, EffWeight(t))] else []) +
      (if Advances(t) && t.sleep + e >= 0 && !t.suspendPending then [Woke(i, EffWeight(t))] else [])
  }

  lemma TickSlotIs(k: K, i: nat, e: int)
    requires i < |k.tasks|
    ensures TickSlot(k, i, e).tasks == k.tasks[i := SlotTask(k.mode, k.tasks[i], Removable(k, i), e)]
  {
    hide Post;
    assert k.tasks == k.tasks[i := k.tasks[i]];
  }

  lemma AdvanceLog(k: K, i: nat, e: int)
    requires i < |k.tasks|
    ensures var t := k.tasks[i];
            AdvanceSleep(k, i, e).log ==
            k.log + if t.sleep + e >= 0 && !t.suspendPending then [Woke(i, EffWeight(t))] else []
  {
    hide Post;
  }

  lemma TickSlotLog(k: K, i: nat, e: int)
    requires i < |k.tasks|
    ensures TickSlot(k, i, e).log == k.log + SlotNotes(k.mode, i, k.tasks[i], Removable(k, i), e)
  {
    if Asleep(k.tasks[i]) { AsleepLog(k, i, e); } else { hide Post; }
  }

  lemma AsleepLog(k: K, i: nat, e: int)
    requires i < |k.tasks| && Asleep(k.tasks[i])
    ensures TickSlot(k, i, e).log == k.log + SlotNotes(k.mode, i, k.tasks[i], Removable(k, i), e)
  {
    hide Post, AdvanceSleep;
    var t := k.tasks[i];
    var k1 := if k.mode.noSleepYield then SetTask(k, i, t.(yieldPending := false)) else k;
    assert k1.log == k.log && EffWeight(k1.tasks[i]) == EffWeight(t);
    if k.mode.dynamic && t.removePending && Removable(k, i) {
    } else if t.sleepPending {
      var k2 := DeliverSleep(k1, i);
      assert k2.log == k.log + [Slept(i, EffWeight(t))];
      if t.wakePending && !Infinite(t) { AdvanceLog(k2, i, e); }
    } else {
      if !Infinite(t) { AdvanceLog(k1, i, e); }
    }
  }

  /** A slot that is not the current task, or not asleep and exiting, is handled alike in every state. */
  lemma {:induction false} SweepTask(s: Sweep, i: nat, e: int, j: nat)
    requires i <= |s.k.tasks| && j < |s.k.tasks|
    requires s.k.now != Some(j) || !s.k.tasks[j].removePending || !Asleep(s.k.tasks[j])
    ensures SweepFrom(s, i, e).k.tasks[j] ==
            if i <= j then SlotTask(s.k.mode, s.k.tasks[j], true, e) else s.k.tasks[j]
    decreases |s.k.tasks| - i
  {
    if i < |s.k.tasks| {
      TickSlotIs(s.k, i, e);
      hide TickSlot;
      var s1 := SweepSlot(s, i, e);
      if i < j {
        SweepTask(s1, i + 1, e, j);
      } else if i == j {
        SweptStays(s1, i + 1, e, j);
      } else {
        SweptStays(s1, i + 1, e, j);
      }
    }
  }

  /** A slot already visited is not visited again. */
  lemma {:induction false} SweptStays(s: Sweep, i: nat, e: int, j: nat)
    requires j < i <= |s.k.tasks|
    ensures SweepFrom(s, i, e).k.tasks[j] == s.k.tasks[j]
    decreases |s.k.tasks| - i
  {
    if i < |s.k.tasks| {
      TickSlotIs(s.k, i, e);
      hide TickSlot, SlotTask;
      SweptStays(SweepSlot(s, i, e), i + 1, e, j);
    }
  }

  /** Charging the time slice touches nothing but the slice of the current task. */
  lemma SliceFrame(k: K, e: int, j: nat)
    requires j < |k.tasks|
    ensures var t := UpdateTimeslice(k, e).tasks[j];
            t == k.tasks[j].(ts := t.ts) && (k.now != Some(j) ==> t == k.tasks[j])
  {
  }

  /** The task a whole tick leaves in slot `j`, up to its time slice and the final HRT take-off. */
  lemma TickTask(k: K, e: int, j: nat)
    requires Core(k) && e >= 0 && j < |k.tasks|
    requires k.now != Some(j) || !k.tasks[j].removePending || (!Asleep(k.tasks[j]) && !IsWaiting(k.tasks[j]))
    ensures var t := SlotTask(k.mode, TickWait(k.tasks[j], e), true, e);
            && TickBody(k, e).tasks[j] == t.(ts := TickBody(k, e).tasks[j].ts)
            && (k.now != Some(j) ==> TickBody(k, e).tasks[j] == t)
  {
    hide Core, UpdateSyncObjects, SlotTask, UpdateTimeslice, SweepFrom, TickWait;
    CoreShaped(k);
    var k0 := k.(ticks := k.ticks + e);
    ClockKeeps(k, k0);
    SyncTick(k0, e);
    var k1 := UpdateSyncObjects(k0, e);
    assert k1.tasks[j] == TickWait(k.tasks[j], e);
    WaitKeepsFlags(k.tasks[j], e);
    SweepTask(Sweep(k1, if k1.mode.tickless then TICKLESS_TICKS_MAX else 1), 0, e, j);
    SliceFrame(UpdateTaskState(k1, e).k, e, j);
  }

  lemma WaitKeepsFlags(t: Task, e: int)
    ensures TickWait(t, e).removePending == t.removePending && (!IsWaiting(t) ==> TickWait(t, e) == t)
  {
  }

  /** Only the sync objects touch the wait object of a slot. */
  lemma {:induction false} SweepWait(s: Sweep, i: nat, e: int, j: nat)
    requires i <= |s.k.tasks| && j < |s.k.tasks|
    ensures SweepFrom(s, i, e).k.tasks[j].wait == s.k.tasks[j].wait
    decreases |s.k.tasks| - i
  {
    if i < |s.k.tasks| {
      TickSlotIs(s.k, i, e);
      hide TickSlot;
      SweepWait(SweepSlot(s, i, e), i + 1, e, j);
    }
  }

  lemma BodyWait(k: K, e: int, j: nat)
    requires Core(k) && e >= 0 && j < |k.tasks|
    ensures Shaped(k) && TickBody(k, e).tasks[j].wait == TickWait(k.tasks[j], e).wait
  {
    hide Core, UpdateSyncObjects, SweepFrom, UpdateTimeslice, TickWait;
    CoreShaped(k);
    var k0 := k.(ticks := k.ticks + e);
    ClockKeeps(k, k0);
    SyncTick(k0, e);
    var k1 := UpdateSyncObjects(k0, e);
    SweepWait(Sweep(k1, if k1.mode.tickless then TICKLESS_TICKS_MAX else 1), 0, e, j);
    SliceFrame(UpdateTaskState(k1, e).k, e, j);
  }
}
