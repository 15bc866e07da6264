/** The invariant of the kernel and the proof that every entry point keeps it. */
module KernelInv {
  import opened KernelTypes
  import opened KernelSpec

  // ---- the invariant --------------------------------------------------------------------------

  /** Time-slice accounting of slot `i`: between 1 and quantum ticks left, except for a current task
      that is charged while the rotation is held back by the scheduler lock. */
  ghost predicate SliceInv(k: K, i: nat)
    requires i < |k.tasks|
  {
    var t := k.tasks[i];
    && 0 <= t.ts.quantum && t.ts.left <= t.ts.quantum
    && (t.ts.quantum == 0 ==> t.ts.left == 0)
    && (!k.mode.timeslice ==> t.ts.quantum == 0)
    && (t.ts.quantum > 0 && (k.now != Some(i) || Asleep(t) || t.yieldPending || k.fsm == Sleeping)
        ==> 1 <= t.ts.left)
  }

  /** The ledger agrees with slot `i`: managed while bound, runnable exactly while awake or still
      holding the pending-sleep flag, filed under its effective weight, waiting while linked. */
  ghost predicate LedgerInv(k: K, i: nat)
    requires i < |k.tasks|
  {
    var t := k.tasks[i];
    && (i in k.strat.all <==> Busy(t))
    && (i in k.strat.filed <==> Busy(t) && (!Asleep(t) || t.sleepPending))
    && (i in k.strat.filed ==> k.strat.filed[i] == EffWeight(t))
    && (i in k.strat.waiting <==> IsWaiting(t))
    && (Over(t.wait.state) ==> i in k.strat.ended && k.strat.ended[i] == t.wait.state)
  }

  /** The wait ended, and its result was not taken yet. */
  predicate Over(s: WaitState) { s == Signaled || s == TimedOut || s == Cancelled }

  /** Flags, sleep counter, wait object, HRT data and weights of slot `i` are consistent. */
  ghost predicate FlagInv(k: K, i: nat)
    requires i < |k.tasks|
  {
    var t := k.tasks[i];
    && -WAIT_INFINITE <= t.sleep
    && (t.sleepPending ==> Asleep(t) && (k.now.Some? ==> k.now == Some(i)))
    && (!Busy(t) ==> t.sleep == 0 && !t.removePending && !t.wakePending && !t.suspended
                     && !t.suspendPending && !t.yieldPending && !t.hrt.done && !IsWaiting(t)
                     && t.ts == Slice(0, 0) && t.hrt == Hrt(0, 0, 0, false))
    && (!Asleep(t) ==> !t.suspendPending)
    && (t.yieldPending ==> k.mode.noSleepYield)
    && (IsWaiting(t) ==> k.mode.sync && k.now.Some? && Infinite(t) && t.wait.state == Waiting
                          && t.wait.time <= WAIT_INFINITE && !t.removePending)
    && (t.wait.state == Waiting ==> IsWaiting(t))
    && (t.suspended && !k.mode.hrt ==> Infinite(t) && !IsWaiting(t) && !t.suspendPending)
    && (k.mode.hrt ==> !IsWaiting(t) && (t.hrt.done ==> Asleep(t)))
    && (t.removePending ==> k.mode.dynamic)
    && 0 <= t.hrt.duration && 0 <= t.hrt.period < WAIT_INFINITE
    && (Busy(t) ==> (t.rtWeight == NO_WEIGHT || t.rtWeight > BaseWeight(t)) && BaseWeight(t) >= 0)
  }

  ghost predicate SlotInv(k: K, i: nat)
    requires i < |k.tasks|
  {
    LedgerInv(k, i) && FlagInv(k, i) && SliceInv(k, i)
  }

  ghost predicate NoDup(s: seq<nat>) { forall a, b :: 0 <= a < b < |s| ==> s[a] != s[b] }

  /** Bound tasks, and the stacks they run on, are pairwise distinct. */
  ghost predicate Distinct(ts: seq<Task>) {
    forall a, b :: 0 <= a < b < |ts| && Busy(ts[a]) && Busy(ts[b]) ==>
      ts[a].user.value.id != ts[b].user.value.id && ts[a].user.value.stack != ts[b].user.value.stack
  }

  /** A slot is linked into the list of a sync object exactly while it waits on that object, once;
      every object with a waiter is registered for ticks. */
  ghost predicate WaitsInv(k: K) {
    && (forall i: nat, s: nat :: i < |k.tasks| ==> (k.tasks[i].wait.sync == Some(s) <==> i in WaitList(k, s)))
    && (forall s: nat :: NoDup(WaitList(k, s)))
    && (forall s: nat :: WaitList(k, s) != [] ==> s in k.syncs)
    && NoDup(k.syncs) && (!k.mode.sync ==> k.syncs == [])
  }

  /** The two state machines fit together, and the ledger names slots only. */
  ghost predicate PhaseInv(k: K) {
    && Shaped(k) && |k.tasks| > 0
    && (forall i :: i in k.strat.all ==> i < |k.tasks|)
    && (forall i :: i in k.strat.filed ==> i in k.strat.all)
    && (forall i :: i in k.strat.waiting ==> i in k.strat.all)
    && (k.now.Some? <==> k.fsm == Switching || k.fsm == Sleeping || k.fsm == Waking)
    && (k.fsm == FsmNone <==> k.kstate == Inactive || k.kstate == Ready)
    && (k.kstate == Locked ==> k.fsm != Sleeping && k.fsm != Exiting && !k.mode.hrt)
    && !(k.mode.hrt && k.mode.timeslice) && !(k.mode.hrt && k.mode.tickless)
  }

  /** What holds at every point, also between two slots of one tick. */
  ghost predicate Core(k: K) {
    && PhaseInv(k)
    && (forall i :: 0 <= i < |k.tasks| ==> SlotInv(k, i))
    && Distinct(k.tasks)
    && WaitsInv(k)
    && Replay(k.log) == Some(k.strat)
  }

  /** The current task is bound; under the sleep trap it is asleep and known to be so; while it holds
      the scheduler lock it is not yielding; in HRT mode it is otherwise awake or just finishing. */
  ghost predicate NowInv(k: K)
    requires PhaseInv(k)
  {
    k.now.Some? ==>
      && k.now.value in k.strat.all
      && (k.fsm == Sleeping ==> Asleep(k.tasks[k.now.value]) && !k.tasks[k.now.value].sleepPending)
      && (k.kstate == Locked ==> !k.tasks[k.now.value].yieldPending || Asleep(k.tasks[k.now.value]))
      && (k.mode.hrt && k.fsm != Sleeping ==> !Asleep(k.tasks[k.now.value]) || k.tasks[k.now.value].sleepPending)
  }

  /** A completed HRT job has not been taken off yet, or its task is exiting. */
  ghost predicate DoneInv(k: K, i: nat)
    requires i < |k.tasks|
  {
    var t := k.tasks[i];
    k.mode.hrt && t.hrt.done ==> k.now.Some? && (t.removePending || t.sleepPending)
  }

  /** The invariant that holds between any two entry points. */
  ghost predicate Inv(k: K) {
    && Core(k) && NowInv(k)
    && (forall i :: 0 <= i < |k.tasks| ==> DoneInv(k, i))
  }

  lemma CoreShaped(k: K)
    requires Core(k)
    ensures Shaped(k) && NoDup(k.syncs)
  {
  }

  /** What the invariant says about modes and phases. */
  lemma ModeFacts(k: K)
    requires Inv(k)
    ensures Shaped(k)
    ensures !(k.mode.hrt && k.mode.timeslice) && !(k.mode.hrt && k.mode.tickless)
    ensures k.kstate == Locked ==> !k.mode.hrt && k.fsm != FsmNone
    ensures k.now.Some? ==> k.fsm == Switching || k.fsm == Sleeping || k.fsm == Waking
  {
  }

  // ---- generic updates ------------------------------------------------------------------------

  lemma ReplayTell(k: K, n: Note)
    requires Replay(k.log) == Some(k.strat) && Legal(k.strat, n)
    ensures Replay(Tell(k, n).log) == Some(Tell(k, n).strat)
  {
    var l := k.log + [n];
    assert l[..|l| - 1] == k.log;
  }

  /** The part of the state SlotInv(k, j) depends on is the same in `r`. */
  ghost predicate SameSlot(k: K, r: K, j: nat)
    requires |r.tasks| == |k.tasks| && j < |k.tasks|
  {
    && r.tasks[j] == k.tasks[j] && r.mode == k.mode && r.now == k.now && r.fsm == k.fsm
    && (j in r.strat.all <==> j in k.strat.all)
    && (j in r.strat.waiting <==> j in k.strat.waiting)
    && (j in r.strat.filed <==> j in k.strat.filed)
    && (j in r.strat.filed ==> r.strat.filed[j] == k.strat.filed[j])
    && (j in r.strat.ended <==> j in k.strat.ended)
    && (j in r.strat.ended ==> r.strat.ended[j] == k.strat.ended[j])
  }

  lemma SlotFrame(k: K, r: K, j: nat)
    requires |r.tasks| == |k.tasks| && j < |k.tasks| && SameSlot(k, r, j)
    ensures SlotInv(r, j) == SlotInv(k, j)
  {
  }

  /** Bindings and wait lists are untouched when users, links and lists are. */
  lemma LinksFrame(k: K, r: K)
    requires |r.tasks| == |k.tasks| && r.waits == k.waits && r.syncs == k.syncs && r.mode == k.mode
    requires forall j :: 0 <= j < |k.tasks| ==>
               r.tasks[j].user == k.tasks[j].user && r.tasks[j].wait.sync == k.tasks[j].wait.sync
    requires Distinct(k.tasks) && WaitsInv(k)
    ensures Distinct(r.tasks) && WaitsInv(r)
  {
    forall s: nat ensures WaitList(r, s) == WaitList(k, s) {}
  }

  /** Changing one slot, but not whom it is bound to or where it is linked, is a local affair. */
  lemma SetKeeps(k: K, i: nat, t: Task)
    requires Core(k) && i < |k.tasks|
    requires t.user == k.tasks[i].user && t.wait.sync == k.tasks[i].wait.sync
    requires SlotInv(SetTask(k, i, t), i)
    ensures Core(SetTask(k, i, t))
  {
    var r := SetTask(k, i, t);
    LinksFrame(k, r);
    forall j | 0 <= j < |r.tasks| ensures SlotInv(r, j) {
      if j != i { SlotFrame(k, r, j); }
    }
  }

  /** The same together with one legal call to the strategy about that slot. */
  lemma SetTellKeeps(k: K, i: nat, t: Task, n: Note)
    requires Core(k) && i < |k.tasks|
    requires t.user == k.tasks[i].user && t.wait.sync == k.tasks[i].wait.sync
    requires n.i == i && Legal(k.strat, n) && !n.Added? && !n.Removed? && !n.WaitBegun? && !n.WaitEnded?
    requires SlotInv(Tell(SetTask(k, i, t), n), i)
    ensures Core(Tell(SetTask(k, i, t), n))
  {
    var r := Tell(SetTask(k, i, t), n);
    ReplayTell(SetTask(k, i, t), n);
    LinksFrame(k, r);
    assert i in k.strat.all by { assert SlotInv(k, i); }
    forall j | 0 <= j < |r.tasks| ensures SlotInv(r, j) {
      if j != i { SlotFrame(k, r, j); }
    }
  }

  // ---- the tick: task slots -------------------------------------------------------------------

  lemma DeliverSleepKeeps(k: K, i: nat)
    requires Core(k) && i < |k.tasks| && k.tasks[i].sleepPending
    ensures Core(DeliverSleep(k, i))
  {
    hide WaitsInv, Distinct, Replay;
    assert SlotInv(k, i);
    var t := k.tasks[i].(sleepPending := false, wakePending := false);
    SetTellKeeps(k, i, t, Slept(i, EffWeight(t)));
  }

  lemma WakeUpKeeps(k: K, i: nat, e: int)
    requires Core(k) && i < |k.tasks| && Asleep(k.tasks[i]) && !k.tasks[i].sleepPending && !Infinite(k.tasks[i])
    requires k.tasks[i].sleep + e >= 0 && !k.tasks[i].suspendPending && (k.mode.hrt ==> !k.tasks[i].hrt.done)
    ensures Core(DeliverWake(SetTask(k, i, k.tasks[i].(sleep := k.tasks[i].sleep + e)), i))
  {
    hide WaitsInv, Distinct, Replay;
    assert SlotInv(k, i);
    var t := k.tasks[i].(sleep := k.tasks[i].sleep + e);
    SetTellKeeps(k, i, t, Woke(i, EffWeight(t)));
  }

  lemma SleepOnKeeps(k: K, i: nat, t: Task)
    requires Core(k) && i < |k.tasks| && Asleep(k.tasks[i]) && !Infinite(k.tasks[i])
    requires (k.tasks[i].sleep <= t.sleep < 0 && t == k.tasks[i].(sleep := t.sleep)) || t == CommitSuspend(k.tasks[i])
    ensures Core(SetTask(k, i, t))
  {
    hide WaitsInv, Distinct, Replay;
    assert SlotInv(k, i);
    SetKeeps(k, i, t);
  }

  lemma AdvanceSleepKeeps(k: K, i: nat, e: int)
    requires Core(k) && i < |k.tasks| && e >= 0
    requires Asleep(k.tasks[i]) && !Infinite(k.tasks[i]) && !k.tasks[i].sleepPending
    requires k.mode.hrt && k.tasks[i].hrt.done ==> k.tasks[i].suspendPending || k.tasks[i].sleep + e < 0
    ensures Core(AdvanceSleep(k, i, e))
  {
    hide Core, DeliverWake, CommitSuspend;
    var t := k.tasks[i];
    if t.suspendPending && t.sleep + e >= 0 {
      SleepOnKeeps(k, i, CommitSuspend(t));
    } else if t.sleep + e < 0 {
      SleepOnKeeps(k, i, t.(sleep := t.sleep + e));
    } else {
      WakeUpKeeps(k, i, e);
    }
  }

  lemma ChargeHrtKeeps(k: K, i: nat, e: int)
    requires Core(k) && i < |k.tasks| && e >= 0 && !Asleep(k.tasks[i])
    ensures Core(ChargeHrt(k, i, e))
  {
    hide Core, SlotInv;
    var t := k.tasks[i];
    var t1 := t.(hrt := t.hrt.(duration := t.hrt.duration + e));
    if k.mode.hrt && Busy(t) {
      ChargedSlot(k, i, e);
      if t1.hrt.duration > t.hrt.deadline { SetTellKeeps(k, i, t1, Missed(i)); }
      else { SetKeeps(k, i, t1); }
    }
  }

  /** A longer duration is nothing the slot's invariant looks at, and a missed deadline changes no set. */
  lemma ChargedSlot(k: K, i: nat, e: int)
    requires Core(k) && i < |k.tasks| && e >= 0 && Busy(k.tasks[i])
    ensures var t := k.tasks[i].(hrt := k.tasks[i].hrt.(duration := k.tasks[i].hrt.duration + e));
            && Legal(k.strat, Missed(i)) && SlotInv(SetTask(k, i, t), i)
            && SlotInv(Tell(SetTask(k, i, t), Missed(i)), i)
  {
    hide WaitsInv, Distinct, Replay;
    assert SlotInv(k, i);
  }

  lemma RemoveKeeps(k: K, i: nat)
    requires Core(k) && i < |k.tasks| && Busy(k.tasks[i]) && !IsWaiting(k.tasks[i])
    ensures Core(RemoveSlot(k, i))
  {
    assert SlotInv(k, i);
    var r := RemoveSlot(k, i);
    ReplayTell(k, Removed(i, EffWeight(k.tasks[i])));
    forall j | 0 <= j < |r.tasks| ensures SlotInv(r, j) {
      if j != i { SlotFrame(k, r, j); }
    }
    forall s: nat ensures WaitList(r, s) == WaitList(k, s) {}
  }

  /** The current task stays bound, or it was the last one and nothing is left. */
  ghost predicate AllAfter(k: K, r: K) {
    && r.strat.all <= k.strat.all
    && (k.now.Some? && k.now.value in k.strat.all ==>
          k.now.value in r.strat.all || (r.strat.all == {} && k.mode.dynamic && k.fsm == Sleeping))
  }

  /** Between the sweep and the scheduler step a finished job of the current task is still marked. */
  ghost predicate DoneMid(k: K, i: nat)
    requires i < |k.tasks|
  {
    var t := k.tasks[i];
    k.mode.hrt && t.hrt.done ==>
      k.now.Some? && (t.removePending || (k.now == Some(i) && k.fsm != Sleeping))
  }

  lemma ClearYieldKeeps(k: K, i: nat)
    requires Core(k) && i < |k.tasks|
    ensures Core(SetTask(k, i, k.tasks[i].(yieldPending := false)))
  {
    hide WaitsInv, Distinct, Replay;
    assert SlotInv(k, i);
    SetKeeps(k, i, k.tasks[i].(yieldPending := false));
  }

  lemma SlotFacts(k: K, i: nat)
    requires Core(k) && i < |k.tasks|
    ensures var t := k.tasks[i];
            && (t.sleepPending ==> Asleep(t)) && (t.removePending ==> Busy(t) && !IsWaiting(t) && k.mode.dynamic)
  {
    hide WaitsInv, Distinct, Replay;
    assert SlotInv(k, i);
  }

  /** The slot advances on this tick: it is not in its entry tick and not parked. */
  predicate Advances(t: Task) { !(t.sleepPending && !t.wakePending) && !Infinite(t) }

  /** The slot holds a completed HRT job that a tick by `e` would wake. */
  predicate WakesDone(t: Task, e: int) {
    t.hrt.done && Asleep(t) && Advances(t) && !t.suspendPending && t.sleep + e >= 0
  }

  /** The tick does not wake a completed job in slot `i`, unless it frees the slot instead. */
  ghost predicate Spared(k: K, i: nat, e: int)
    requires i < |k.tasks|
  {
    k.mode.hrt && WakesDone(k.tasks[i], e) ==> k.tasks[i].removePending && Removable(k, i)
  }

  /** From slot `pos` on, slot `n` is the only task left, or the tasks before it are about to be freed. */
  ghost predicate Lonely(k: K, pos: nat, n: nat) {
    forall j :: 0 <= j < |k.tasks| && j != n && Busy(k.tasks[j]) ==>
      pos <= j < n && k.tasks[j].removePending && Asleep(k.tasks[j])
  }

  /** A tick that visits the slots from `pos` on wakes no completed HRT job. Only the job of the current task
      can be woken, and that does not happen when the task is freed as the last one under the sleep trap. */
  ghost predicate BounceFree(k: K, pos: nat, e: int) {
    k.mode.hrt && k.now.Some? && pos <= k.now.value < |k.tasks| && WakesDone(k.tasks[k.now.value], e) ==>
      k.tasks[k.now.value].removePending && k.fsm == Sleeping && Lonely(k, pos, k.now.value)
  }

  lemma SparedSlot(k: K, i: nat, e: int)
    requires Core(k) && i < |k.tasks| && DoneInv(k, i) && BounceFree(k, i, e)
    ensures Spared(k, i, e)
  {
    hide WaitsInv, Distinct, Replay;
    assert SlotInv(k, i);
    if k.mode.hrt && WakesDone(k.tasks[i], e) && k.now == Some(i) {
      forall j | j in k.strat.all ensures j == i { assert SlotInv(k, j); }
      assert k.strat.all == {i};
    }
  }

  lemma TickSlotKeeps(k: K, i: nat, e: int)
    requires Core(k) && i < |k.tasks| && e >= 0 && Spared(k, i, e)
    ensures Core(TickSlot(k, i, e))
  {
    hide Core, RemoveSlot, ChargeHrt, AdvanceSleep;
    ClearYieldKeeps(k, i);
    var k1 := if k.mode.noSleepYield then SetTask(k, i, k.tasks[i].(yieldPending := false)) else k;
    var t := k1.tasks[i];
    SlotFacts(k1, i);
    if !Asleep(t) {
      ChargeHrtKeeps(k1, i, e);
    } else if k.mode.dynamic && t.removePending && Removable(k1, i) {
      RemoveKeeps(k1, i);
    } else {
      if t.sleepPending { DeliverSleepKeeps(k1, i); }
      var k2 := if t.sleepPending then DeliverSleep(k1, i) else k1;
      if !((t.sleepPending && !t.wakePending) || Infinite(t)) { AdvanceSleepKeeps(k2, i, e); }
    }
  }

  /** What the tick does to the slot it visits, and that it leaves the others alone. */
  lemma TickSlotEffect(k: K, i: nat, e: int)
    requires Core(k) && i < |k.tasks| && DoneInv(k, i)
    requires k.now == Some(i) && k.fsm == Sleeping ==> !k.tasks[i].sleepPending
    ensures AllAfter(k, TickSlot(k, i, e))
    ensures !TickSlot(k, i, e).tasks[i].sleepPending && DoneMid(TickSlot(k, i, e), i)
    ensures forall j :: 0 <= j < |k.tasks| && j != i ==> TickSlot(k, i, e).tasks[j] == k.tasks[j]
  {
    hide WaitsInv, Distinct, Replay;
    assert SlotInv(k, i);
    hide SlotInv, Core;
    if Asleep(k.tasks[i]) && k.mode.dynamic && k.tasks[i].removePending && Removable(k, i) {
      FreedEffect(k, i, e);
    } else {
      KeptEffect(k, i, e);
    }
  }

  lemma FreedEffect(k: K, i: nat, e: int)
    requires i < |k.tasks| && Asleep(k.tasks[i]) && k.mode.dynamic && k.tasks[i].removePending && Removable(k, i)
    requires i in k.strat.all
    ensures AllAfter(k, TickSlot(k, i, e))
    ensures !TickSlot(k, i, e).tasks[i].sleepPending && DoneMid(TickSlot(k, i, e), i)
    ensures forall j :: 0 <= j < |k.tasks| && j != i ==> TickSlot(k, i, e).tasks[j] == k.tasks[j]
  {
    if |k.strat.all| == 1 { SingletonSet(k.strat.all, i); }
  }

  /** `r` differs from `k` in slot `i` only, where the flags of an exit and of a job are the same, and manages
      the same tasks. */
  ghost predicate SameElsewhere(k: K, r: K, i: nat) {
    && |r.tasks| == |k.tasks| && i < |k.tasks| && r.strat.all == k.strat.all
    && r.now == k.now && r.fsm == k.fsm && r.mode == k.mode
    && r.tasks[i].removePending == k.tasks[i].removePending && r.tasks[i].hrt.done == k.tasks[i].hrt.done
    && forall j :: 0 <= j < |k.tasks| && j != i ==> r.tasks[j] == k.tasks[j]
  }

  lemma AdvanceElsewhere(k: K, i: nat, e: int)
    requires i < |k.tasks|
    ensures SameElsewhere(k, AdvanceSleep(k, i, e), i)
    ensures AdvanceSleep(k, i, e).tasks[i].sleepPending == k.tasks[i].sleepPending
  {
    hide EffWeight;
  }

  lemma ChargeElsewhere(k: K, i: nat, e: int)
    requires i < |k.tasks|
    ensures SameElsewhere(k, ChargeHrt(k, i, e), i)
    ensures ChargeHrt(k, i, e).tasks[i].sleepPending == k.tasks[i].sleepPending
  {
  }

  lemma DeliverElsewhere(k: K, i: nat)
    requires i < |k.tasks|
    ensures SameElsewhere(k, DeliverSleep(k, i), i) && !DeliverSleep(k, i).tasks[i].sleepPending
  {
    hide EffWeight;
  }

  lemma KeptEffect(k: K, i: nat, e: int)
    requires i < |k.tasks| && DoneInv(k, i) && (k.tasks[i].sleepPending ==> Asleep(k.tasks[i]))
    requires k.tasks[i].sleepPending && k.now.Some? ==> k.now == Some(i)
    requires k.now == Some(i) && k.fsm == Sleeping ==> !k.tasks[i].sleepPending
    requires !(Asleep(k.tasks[i]) && k.mode.dynamic && k.tasks[i].removePending && Removable(k, i))
    ensures AllAfter(k, TickSlot(k, i, e))
    ensures !TickSlot(k, i, e).tasks[i].sleepPending && DoneMid(TickSlot(k, i, e), i)
    ensures forall j :: 0 <= j < |k.tasks| && j != i ==> TickSlot(k, i, e).tasks[j] == k.tasks[j]
  {
    hide AdvanceSleep, ChargeHrt, DeliverSleep, RemoveSlot;
    var k1 := if k.mode.noSleepYield then SetTask(k, i, k.tasks[i].(yieldPending := false)) else k;
    var k2 := if k1.tasks[i].sleepPending then DeliverSleep(k1, i) else k1;
    ChargeElsewhere(k1, i, e);
    DeliverElsewhere(k1, i);
    AdvanceElsewhere(k2, i, e);
  }

  lemma SingletonSet(s: set<nat>, x: nat)
    requires |s| == 1 && x in s
    ensures s == {x}
  {
    assert |s - {x}| == 0;
  }

  lemma BounceStep(k: K, i: nat, e: int)
    requires Core(k) && i < |k.tasks| && BounceFree(k, i, e)
    ensures BounceFree(TickSlot(k, i, e), i + 1, e)
  {
    hide WaitsInv, Distinct, Replay;
    assert SlotInv(k, i);
    if k.now.Some? && i < k.now.value && k.mode.hrt && WakesDone(k.tasks[k.now.value], e) {
      assert SlotInv(k, k.now.value);
      assert Busy(k.tasks[i]) ==> k.tasks[i].removePending && Asleep(k.tasks[i]);
    }
  }

  lemma SweepKeeps(s: Sweep, i: nat, e: int)
    requires Core(s.k) && i <= |s.k.tasks| && e >= 0
    requires forall j :: 0 <= j < i ==> Settled(s.k, j)
    requires forall j :: i <= j < |s.k.tasks| ==> DoneInv(s.k, j)
    requires s.k.now.Some? && s.k.fsm == Sleeping ==> !s.k.tasks[s.k.now.value].sleepPending
    requires BounceFree(s.k, i, e)
    ensures Core(SweepFrom(s, i, e).k) && AllAfter(s.k, SweepFrom(s, i, e).k)
    ensures forall j :: 0 <= j < |s.k.tasks| ==> Settled(SweepFrom(s, i, e).k, j)
    decreases |s.k.tasks| - i
  {
    hide WaitsInv, Distinct, Replay, SlotInv, TickSlot;
    if i < |s.k.tasks| {
      SparedSlot(s.k, i, e);
      TickSlotKeeps(s.k, i, e);
      TickSlotEffect(s.k, i, e);
      BounceStep(s.k, i, e);
      hide BounceFree, Spared;
      var s1 := SweepSlot(s, i, e);
      forall j | 0 <= j < |s.k.tasks| && j != i
        ensures j < i ==> Settled(s1.k, j)
        ensures i < j ==> DoneInv(s1.k, j)
      {
        assert j < i ==> Settled(s.k, j);
        assert i < j ==> DoneInv(s.k, j);
      }
      SweepKeeps(s1, i + 1, e);
    }
  }

  /** Slot `i` after the sweep: nothing pending, a completed job only on the current task. */
  ghost predicate Settled(k: K, i: nat)
    requires i < |k.tasks|
  {
    !k.tasks[i].sleepPending && DoneMid(k, i)
  }

  // ---- the tick: time slice and scheduler -----------------------------------------------------

  /** Every sliced task has at least one tick left, so the CPU may go to any of them. */
  ghost predicate Fresh(k: K) {
    k.now.Some? && k.now.value < |k.tasks| && k.tasks[k.now.value].ts.quantum > 0 ==>
      k.tasks[k.now.value].ts.left >= 1
  }

  lemma TimesliceKeeps(k: K, e: int)
    requires Core(k) && e >= 0
    requires k.now.Some? ==> !k.tasks[k.now.value].yieldPending
    requires forall j :: 0 <= j < |k.tasks| ==> Settled(k, j)
    ensures Core(UpdateTimeslice(k, e)) && UpdateTimeslice(k, e).strat == k.strat
    ensures forall j :: 0 <= j < |k.tasks| ==> Settled(UpdateTimeslice(k, e), j)
    ensures k.kstate != Locked ==> Fresh(UpdateTimeslice(k, e))
  {
    hide WaitsInv, Distinct, Replay;
    if k.now.Some? { assert SlotInv(k, k.now.value); }
    forall j | 0 <= j < |k.tasks| ensures Settled(UpdateTimeslice(k, e), j) { assert Settled(k, j); }
    if k.mode.timeslice && Charged(k) {
      var i := k.now.value;
      var t := k.tasks[i].(ts := k.tasks[i].ts.(left := k.tasks[i].ts.left - e));
      if k.kstate != Locked && t.ts.left <= 0 { SetTellKeeps(k, i, Reload(t), Sliced(i)); }
      else { SetKeeps(k, i, t); }
    }
  }

  /** What GetNext() and GetFirst() may return according to the strategy's contract. */
  ghost predicate LegalChoice(g: Ledger, c: Choice) {
    && (c.next.Some? ==> c.next.value in g.filed)
    && (c.next.None? ==> g.filed == map[])
    && (g.all != {} ==> c.first in g.all)
  }

  /** Before the scheduler step the current task is bound, or everything is gone. */
  ghost predicate NowMid(k: K) {
    k.now.Some? ==> k.now.value in k.strat.all || (k.strat.all == {} && k.mode.dynamic && k.fsm == Sleeping)
  }

  /** Handing the CPU over is harmless when no sleep is pending and every slice is fresh. */
  lemma RetargetKeeps(k: K, now: Option<nat>, fsm: Fsm, kstate: KState)
    requires Core(k) && Fresh(k) && PhaseInv(k.(now := now, fsm := fsm, kstate := kstate))
    requires now.None? ==> k.strat.all == {} || k.now.None?
    requires forall j :: 0 <= j < |k.tasks| ==> !k.tasks[j].sleepPending
    ensures Core(k.(now := now, fsm := fsm, kstate := kstate))
  {
    hide Replay;
    var r := k.(now := now, fsm := fsm, kstate := kstate);
    LinksFrame(k, r);
    forall j | 0 <= j < |r.tasks| ensures SlotInv(r, j) { assert SlotInv(k, j); }
  }

  lemma HrtOutKeeps(k: K, i: nat)
    requires Core(k) && i < |k.tasks| && k.mode.hrt && Asleep(k.tasks[i])
    ensures Core(SetTask(k, i, HrtOut(k.tasks[i])))
  {
    hide WaitsInv, Distinct, Replay;
    assert SlotInv(k, i);
    SetKeeps(k, i, HrtOut(k.tasks[i]));
  }

  /** A completed job is rewarded with its next period by the step that takes the task off. */
  lemma FsmDone(k: K, c: Choice, j: nat)
    requires Core(k) && NowMid(k) && j < |k.tasks| && Settled(k, j)
    requires Fits(k, c) && LegalChoice(k.strat, c)
    ensures DoneInv(UpdateFsmState(k, c), j)
  {
    hide WaitsInv, Distinct, Replay;
    assert SlotInv(k, j);
  }

  /** The scheduler step: when everything is settled it ends in the full invariant. */
  lemma FsmKeeps(k: K, c: Choice)
    requires Core(k) && NowMid(k) && Fresh(k) && k.kstate != Locked
    requires forall j :: 0 <= j < |k.tasks| ==> Settled(k, j)
    requires Fits(k, c) && LegalChoice(k.strat, c)
    ensures Inv(UpdateFsmState(k, c))
  {
    hide WaitsInv, Distinct, Replay;
    var r := UpdateFsmState(k, c);
    forall j | 0 <= j < |k.tasks| ensures !k.tasks[j].sleepPending && DoneMid(k, j) { assert Settled(k, j); }
    forall j | 0 <= j < |k.tasks| ensures DoneInv(r, j) { FsmDone(k, c, j); }
    if k.now.Some? {
      if c.next.Some? {
        FsmSwitchCore(k, c);
      } else if k.strat.all == {} && k.mode.dynamic {
        RetargetKeeps(k, None, Exiting, k.kstate);
      } else {
        FsmSleepCore(k, c);
      }
    }
  }

  lemma FsmSwitchCore(k: K, c: Choice)
    requires Core(k) && NowMid(k) && Fresh(k) && k.kstate != Locked && k.now.Some? && c.next.Some?
    requires forall j :: 0 <= j < |k.tasks| ==> !k.tasks[j].sleepPending && DoneMid(k, j)
    requires Fits(k, c) && LegalChoice(k.strat, c)
    ensures Core(UpdateFsmState(k, c)) && NowInv(UpdateFsmState(k, c))
  {
    hide WaitsInv, Distinct, Replay;
    var now := k.now.value;
    assert SlotInv(k, now) && SlotInv(k, c.next.value);
    if k.fsm == Sleeping {
      RetargetKeeps(k, c.next, Waking, k.kstate);
    } else {
      RetargetKeeps(k, c.next, Switching, k.kstate);
      var k1 := k.(now := c.next, fsm := Switching);
      if c.next.value != now && k.mode.hrt && k.tasks[now].hrt.done {
        HrtOutKeeps(k1, now);
        assert UpdateFsmState(k, c) == SetTask(k1, now, HrtOut(k1.tasks[now]));
      } else {
        assert UpdateFsmState(k, c) == k1;
      }
    }
  }

  lemma FsmSleepCore(k: K, c: Choice)
    requires Core(k) && NowMid(k) && Fresh(k) && k.kstate != Locked && k.now.Some? && c.next.None?
    requires !(k.strat.all == {} && k.mode.dynamic)
    requires forall j :: 0 <= j < |k.tasks| ==> !k.tasks[j].sleepPending && DoneMid(k, j)
    requires Fits(k, c) && LegalChoice(k.strat, c)
    ensures Core(UpdateFsmState(k, c)) && NowInv(UpdateFsmState(k, c))
  {
    hide WaitsInv, Distinct, Replay;
    var now := k.now.value;
    assert SlotInv(k, now);
    assert now in k.strat.all && c.first in k.strat.all;
    assert SlotInv(k, c.first);
    RetargetKeeps(k, Some(c.first), Sleeping, k.kstate);
    var k1 := k.(now := Some(c.first), fsm := Sleeping);
    if k.fsm != Sleeping && k.mode.hrt && !k.tasks[now].removePending {
      HrtOutKeeps(k1, now);
      assert UpdateFsmState(k, c) == SetTask(k1, now, HrtOut(k1.tasks[now]));
    }
  }
}
