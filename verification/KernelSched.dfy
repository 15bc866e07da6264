/** Scheduling theorems: work conservation, the scheduler lock, adding tasks, suspension. */
module KernelSched {
  import opened KernelTypes
  import opened KernelSpec
  import opened KernelInv
  import opened KernelRuns
  import opened KernelCalls
  import opened KernelTheorems
  import opened KernelTick

  // ---- work conservation ----------------------------------------------------------------------

  /** The CPU is in the sleep trap exactly when no bound task is awake; otherwise the current task
      is bound and awake. */
  ghost predicate WorkConserving(k: K) {
    && (k.fsm == Sleeping <==> forall j :: 0 <= j < |k.tasks| && Busy(k.tasks[j]) ==> Asleep(k.tasks[j]))
    && (k.fsm != Sleeping ==> k.now.Some? && k.now.value < |k.tasks|
                              && Busy(k.tasks[k.now.value]) && !Asleep(k.tasks[k.now.value]))
  }

  /** The step from `k` gave the CPU to the task that the strategy chose, or to the sleep trap when it chose
      none; a trap that is active already stays as it is. */
  predicate Served(k: K, r: K, c: Choice) {
    if c.next.Some? then r.now == c.next && r.fsm == if k.fsm == Sleeping then Waking else Switching
    else r.fsm == Sleeping && r.now == if k.fsm == Sleeping then k.now else Some(c.first)
  }

  /** What the scheduler step needs, and what both of its callers establish. */
  lemma StepConserves(b: K, c: Choice)
    requires Core(b) && NowMid(b) && b.kstate != Locked && b.now.Some?
    requires forall j :: 0 <= j < |b.tasks| ==> Settled(b, j)
    requires Fits(b, c) && LegalChoice(b.strat, c)
    ensures c.next.Some? ==> !Asleep(b.tasks[c.next.value])
    ensures UpdateFsmState(b, c).fsm in {Switching, Sleeping, Waking, Exiting}
    ensures UpdateFsmState(b, c).fsm == Exiting <==> b.strat.all == {}
    ensures UpdateFsmState(b, c).fsm != Exiting ==>
      WorkConserving(UpdateFsmState(b, c)) && Served(b, UpdateFsmState(b, c), c)
  {
    hide WaitsInv, Distinct, Replay;
    var r := UpdateFsmState(b, c);
    forall j | 0 <= j < |b.tasks|
      ensures j in b.strat.filed <==> Busy(b.tasks[j]) && !Asleep(b.tasks[j])
      ensures Busy(r.tasks[j]) == Busy(b.tasks[j]) && Asleep(r.tasks[j]) == Asleep(b.tasks[j])
    {
      assert SlotInv(b, j) && Settled(b, j);
    }
    if c.next.Some? {
      assert !Asleep(r.tasks[c.next.value]);
    } else {
      assert forall j :: 0 <= j < |r.tasks| && Busy(r.tasks[j]) ==> Asleep(r.tasks[j]);
    }
    hide Served;
    StepServes(b, c);
  }

  lemma StepServes(b: K, c: Choice)
    requires Shaped(b) && Fits(b, c) && b.now.Some? && b.fsm in {Switching, Sleeping, Waking}
    ensures UpdateFsmState(b, c).fsm != Exiting ==> Served(b, UpdateFsmState(b, c), c)
  {
  }

  /** After every unlocked tick before the exit the scheduler is work conserving, it never leaves its
      valid states, and the strategy did not hand it a sleeping task. */
  lemma TickConserves(k: K, e: int, c: Choice)
    requires Inv(k) && Enabled(k, TickBy(e, c)) && k.kstate != Locked && k.now.Some?
    ensures c.next.Some? ==> !Asleep(TickBody(k, e).tasks[c.next.value])
    ensures Tick(k, e, c).fsm in {Switching, Sleeping, Waking, Exiting}
    ensures Tick(k, e, c).fsm == Exiting <==> TickBody(k, e).strat.all == {}
    ensures Tick(k, e, c).fsm != Exiting ==> WorkConserving(Tick(k, e, c)) && Served(k, Tick(k, e, c), c)
  {
    hide Core, TickBody, UpdateFsmState, WorkConserving, Settled;
    CoreShaped(k);
    TickBodyKeeps(k, e);
    BodyFrame(k, e);
    StepConserves(TickBody(k, e), c);
  }

  lemma BodyFrame(k: K, e: int)
    requires Shaped(k)
    ensures var b := TickBody(k, e);
            b.kstate == k.kstate && b.mode == k.mode && b.now == k.now && b.fsm == k.fsm && b.ticks == k.ticks + e
  {
    hide TickSyncs, SweepFrom;
  }

  /** A forced switch for the task `id` has something to do: that task is current, and it is asleep with its
      sleep still pending, or awake with a yield pending that the strategy took. */
  predicate Acts(k: K, id: nat) {
    && k.now.Some? && k.now.value < |k.tasks|
    && var t := k.tasks[k.now.value];
       && t.user.Some? && t.user.value.id == id
       && if Asleep(t) then t.sleepPending else k.mode.noSleepYield && t.yieldPending
  }

  /** Exactly then the strategy is asked for the next task; otherwise nothing happens. */
  lemma ActsExactly(k: K, id: nat, c: Choice)
    requires Shaped(k) && Fits(k, c)
    ensures Acts(k, id) <==> ForceBody(k, id).Some?
    ensures !Acts(k, id) ==> ForceSwitch(k, id, c) == k
  {
    hide Post, EffWeight, UpdateFsmState;
  }

  /** The same after every forced switch that acts; and the switch has taken the current task off, or taken
      its yield. */
  lemma ForceConserves(k: K, id: nat, c: Choice)
    requires Inv(k) && Enabled(k, Force(id, c)) && Acts(k, id)
    ensures c.next.Some? ==> !Asleep(k.tasks[c.next.value])
    ensures ForceSwitch(k, id, c).fsm in {Switching, Sleeping, Waking}
    ensures WorkConserving(ForceSwitch(k, id, c)) && Served(k, ForceSwitch(k, id, c), c)
    ensures TakenOff(k, ForceSwitch(k, id, c), k.now.value)
  {
    hide Core, UpdateFsmState, WorkConserving, Settled, TakenOff;
    CoreShaped(k);
    ActsExactly(k, id, c);
    ForceTakesOff(k, id, c);
    ForceBodyKeeps(k, id);
    assert k.now.value in ForceBody(k, id).value.strat.all;
    StepConserves(ForceBody(k, id).value, c);
    if c.next.Some? { BodySleeps(k, id, c.next.value); }
  }

  lemma BodySleeps(k: K, id: nat, j: nat)
    requires Shaped(k) && ForceBody(k, id).Some? && j < |k.tasks|
    ensures Asleep(ForceBody(k, id).value.tasks[j]) == Asleep(k.tasks[j])
  {
    hide Post, EffWeight;
  }

  /** What a switch that acts makes of the task in slot `n`: a pending sleep is delivered to the strategy, or
      the pending yield is over; no sleep is pending afterwards, and no other task is touched. In HRT mode a
      task that is taken off may be given the rest of its period. */
  ghost predicate TakenOff(k: K, r: K, n: nat) {
    && n < |k.tasks| == |r.tasks| && !r.tasks[n].sleepPending
    && (forall j :: 0 <= j < |k.tasks| && j != n ==> r.tasks[j] == k.tasks[j])
    && var t := k.tasks[n];
       if Asleep(t)
       then && r.log == k.log + [Slept(n, EffWeight(t))] && Asleep(r.tasks[n])
            && r.kstate == (if k.kstate == Locked then Running else k.kstate)
            && (!k.mode.hrt ==> r.tasks[n] == t.(sleepPending := false, wakePending := false))
       else r.log == k.log && r.kstate == k.kstate != Locked && r.tasks[n] == t.(yieldPending := false)
  }

  lemma ForceTakesOff(k: K, id: nat, c: Choice)
    requires Inv(k) && Enabled(k, Force(id, c)) && Acts(k, id)
    ensures TakenOff(k, ForceSwitch(k, id, c), k.now.value)
  {
    ActsFacts(k, id);
    hide Core, UpdateFsmState, ForceBody, HrtOut, EffWeight;
    CoreShaped(k);
    ActsExactly(k, id, c);
    ForceBodyKeeps(k, id);
    ForceBodyIs(k, id);
    var n, b := k.now.value, ForceBody(k, id).value;
    FsmTakesOff(b, c, n);
    if !Asleep(k.tasks[n]) { AwakeChooses(b, n, c); }
  }

  /** What is done before the strategy is asked. */
  lemma ForceBodyIs(k: K, id: nat)
    requires Shaped(k) && Acts(k, id)
    ensures ForceBody(k, id).Some? && var n, b := k.now.value, ForceBody(k, id).value;
      var t := k.tasks[n];
      && b.now == k.now && b.mode == k.mode && b.fsm == k.fsm
      && if Asleep(t)
         then && b.log == k.log + [Slept(n, EffWeight(t))]
              && b.kstate == (if k.kstate == Locked then Running else k.kstate)
              && b.tasks == k.tasks[n := t.(sleepPending := false, wakePending := false)]
         else b.log == k.log && b.kstate == k.kstate && b.tasks == k.tasks[n := t.(yieldPending := false)]
  {
    hide Post;
  }

  lemma ActsFacts(k: K, id: nat)
    requires Inv(k) && Acts(k, id)
    ensures var t := k.tasks[k.now.value];
      !Asleep(t) ==> !t.sleepPending && k.kstate != Locked && (k.mode.hrt ==> !t.hrt.done)
  {
    assert SlotInv(k, k.now.value);
  }

  /** With an awake task the strategy cannot answer that there is none. */
  lemma AwakeChooses(b: K, n: nat, c: Choice)
    requires Core(b) && n < |b.tasks| && Busy(b.tasks[n]) && !Asleep(b.tasks[n]) && LegalChoice(b.strat, c)
    ensures c.next.Some?
  {
    assert SlotInv(b, n);
  }

  /** The scheduler step touches no task but the one it takes off, and that one only in HRT mode. */
  lemma FsmTakesOff(b: K, c: Choice, n: nat)
    requires Shaped(b) && Fits(b, c) && b.now == Some(n)
    ensures var r := UpdateFsmState(b, c);
      && |r.tasks| == |b.tasks| && r.log == b.log && r.kstate == b.kstate
      && (forall j :: 0 <= j < |b.tasks| && j != n ==> r.tasks[j] == b.tasks[j])
      && (r.tasks[n] == b.tasks[n] || (b.mode.hrt && r.tasks[n] == HrtOut(b.tasks[n])))
      && (c.next.Some? && !b.tasks[n].hrt.done ==> r.tasks[n] == b.tasks[n])
    ensures Asleep(b.tasks[n]) && !b.tasks[n].sleepPending ==>
      Asleep(HrtOut(b.tasks[n])) && !HrtOut(b.tasks[n]).sleepPending
  {
  }

  // ---- the scheduler lock ---------------------------------------------------------------------

  /** Calls of tasks and interrupt handlers never change the current task. */
  lemma CallsKeepNow(k: K, ev: Event)
    requires Shaped(k) && Enabled(k, ev) && !ev.TickBy? && !ev.Force? && !ev.Start?
    ensures Next(k, ev).now == k.now
  {
    hide Post, EffWeight, ScheduleSleep, WakeTask, TryAllocate, MaxWeight, WakeEach, Unbind, WorkDone, HrtInit, Bind;
    if ev.Wake? { SignalFrame(k, ev.s, ev.everyone); }
  }

  /** The current task changes only in steps after which the kernel is not locked. */
  lemma LockHoldsCpu(k: K, ev: Event)
    requires Inv(k) && Enabled(k, ev) && Next(k, ev).now != k.now
    ensures Next(k, ev).kstate != Locked
  {
    hide Core, TickBody, ForceBody, StartFrom, UpdateFsmState, TickSyncs;
    CoreShaped(k);
    if ev.TickBy? {
      BodyFrame(k, ev.e);
      FsmKState(TickBody(k, ev.e), ev.c);
    } else if ev.Force? {
      ForceUnlocks(k, ev.id);
      if ForceBody(k, ev.id).Some? { FsmKState(ForceBody(k, ev.id).value, ev.c); }
    } else if !ev.Start? {
      CallsKeepNow(k, ev);
    }
  }

  lemma FsmKState(k: K, c: Choice)
    requires Shaped(k) && Fits(k, c)
    ensures var r := UpdateFsmState(k, c); r.kstate == k.kstate && r.mode == k.mode && r.ticks == k.ticks
  {
  }

  /** A forced switch that acts finds or leaves the kernel unlocked. */
  lemma ForceUnlocks(k: K, id: nat)
    requires Inv(k)
    ensures ForceBody(k, id).Some? ==> ForceBody(k, id).value.kstate != Locked
  {
    hide Core;
    CoreShaped(k);
    if ForceBody(k, id).Some? { ForceBodyKeeps(k, id); }
  }

  lemma {:induction false} WakeEachFrame(k: K, ws: seq<nat>)
    requires Shaped(k) && InRange(ws, |k.tasks|)
    ensures var r := WakeEach(k, ws); r == k.(tasks := r.tasks, waits := r.waits, strat := r.strat, log := r.log)
    decreases |ws|
  {
    if ws != [] {
      assert ws[0] in ws && forall x :: x in ws[1..] ==> x in ws;
      WakeEachFrame(EndWaitAndWake(k, ws[0], Signaled), ws[1..]);
    }
  }

  lemma SignalFrame(k: K, s: nat, everyone: bool)
    requires Shaped(k)
    ensures var r := Signal(k, s, everyone);
            r.now == k.now && r.kstate == k.kstate && r.mode == k.mode && r.ticks == k.ticks
  {
    WakeEachFrame(k, WaitList(k, s));
  }

  /** Sleep timers and timeouts do not look at the lock. */
  lemma {:induction false} WaitersAnyState(k: K, ws: seq<nat>, e: int, s: KState)
    requires InRange(ws, |k.tasks|)
    ensures TickWaiters(k.(kstate := s), ws, e) == TickWaiters(k, ws, e).(kstate := s)
    decreases |ws|
  {
    if ws != [] {
      assert ws[0] in ws && forall x :: x in ws[1..] ==> x in ws;
      WaiterAnyState(k, ws[0], e, s);
      hide TickWaiter;
      WaitersAnyState(TickWaiter(k, ws[0], e), ws[1..], e, s);
    }
  }

  lemma WaiterAnyState(k: K, i: nat, e: int, s: KState)
    requires i < |k.tasks|
    ensures TickWaiter(k.(kstate := s), i, e) == TickWaiter(k, i, e).(kstate := s)
  {
    hide Post, Without;
    assert forall x: nat :: WaitList(k.(kstate := s), x) == WaitList(k, x);
  }

  lemma {:induction false} SyncsAnyState(k: K, ss: seq<nat>, e: int, s: KState)
    requires Shaped(k)
    ensures TickSyncs(k.(kstate := s), ss, e) == TickSyncs(k, ss, e).(kstate := s)
    decreases |ss|
  {
    if ss != [] {
      hide TickWaiters;
      WaitersAnyState(k, WaitList(k, ss[0]), e, s);
      assert WaitList(k.(kstate := s), ss[0]) == WaitList(k, ss[0]);
      assert TickSync(k.(kstate := s), ss[0], e) == TickSync(k, ss[0], e).(kstate := s);
      SyncsAnyState(TickSync(k, ss[0], e), ss[1..], e, s);
    }
  }

  lemma {:induction false} SweepAnyState(w: Sweep, i: nat, e: int, s: KState)
    requires i <= |w.k.tasks|
    ensures SweepFrom(w.(k := w.k.(kstate := s)), i, e) == SweepFrom(w, i, e).(k := SweepFrom(w, i, e).k.(kstate := s))
    decreases |w.k.tasks| - i
  {
    if i < |w.k.tasks| {
      SlotAnyState(w.k, i, e, s);
      hide TickSlot, GetSleepTicks;
      SweepAnyState(SweepSlot(w, i, e), i + 1, e, s);
    }
  }

  lemma SlotAnyState(k: K, i: nat, e: int, s: KState)
    requires i < |k.tasks|
    ensures TickSlot(k.(kstate := s), i, e) == TickSlot(k, i, e).(kstate := s)
  {
    hide Post, EffWeight;
    var q := k.(kstate := s);
    var k1 := if k.mode.noSleepYield then SetTask(k, i, k.tasks[i].(yieldPending := false)) else k;
    var q1 := if q.mode.noSleepYield then SetTask(q, i, q.tasks[i].(yieldPending := false)) else q;
    assert q1 == k1.(kstate := s);
    if Asleep(k1.tasks[i]) {
      var k2 := if k1.tasks[i].sleepPending then DeliverSleep(k1, i) else k1;
      var q2 := if q1.tasks[i].sleepPending then DeliverSleep(q1, i) else q1;
      assert q2 == k2.(kstate := s);
      assert AdvanceSleep(q2, i, e) == AdvanceSleep(k2, i, e).(kstate := s);
      assert RemoveSlot(q1, i) == RemoveSlot(k1, i).(kstate := s);
      hide AdvanceSleep, DeliverSleep, RemoveSlot;
    } else {
      assert ChargeHrt(q1, i, e) == ChargeHrt(k1, i, e).(kstate := s);
    }
  }

  /** A tick under the lock advances every timer, wakes every task and reports every change to the
      strategy exactly as an unlocked tick does. */
  lemma TimersRunLocked(k: K, e: int, s: KState)
    requires Shaped(k)
    ensures var k0 := k.(ticks := k.ticks + e);
            UpdateTaskState(UpdateSyncObjects(k0.(kstate := s), e), e)
            == UpdateTaskState(UpdateSyncObjects(k0, e), e)
                 .(k := UpdateTaskState(UpdateSyncObjects(k0, e), e).k.(kstate := s))
  {
    hide TickSyncs, SweepFrom;
    var k0 := k.(ticks := k.ticks + e);
    if k.mode.sync { SyncsAnyState(k0, k0.syncs, e, s); }
    var k1 := UpdateSyncObjects(k0, e);
    SweepAnyState(Sweep(k1, if k1.mode.tickless then TICKLESS_TICKS_MAX else 1), 0, e, s);
  }

  /** A task whose sleep ends during a tick is runnable after it, locked or not. */
  lemma ExpiredIsRunnable(k: K, e: int, j: nat)
    requires Inv(k) && e >= 0 && BounceFree(k, 0, e) && j < |k.tasks|
    requires Asleep(k.tasks[j]) && !Infinite(k.tasks[j]) && k.tasks[j].sleep + e >= 0 && !k.tasks[j].sleepPending
    requires Busy(k.tasks[j]) && !k.tasks[j].suspendPending && !k.tasks[j].removePending
    ensures j in TickBody(k, e).strat.filed && !Asleep(TickBody(k, e).tasks[j])
  {
    assert SlotInv(k, j);
    TickBodyKeeps(k, e);
    TickTask(k, e, j);
    var b := TickBody(k, e);
    hide WaitsInv, Distinct, Replay, TickBody;
    assert SlotInv(b, j);
  }

  /** While the scheduler is locked, an event changes the current task exactly when it is a forced switch
      that takes off a holder which went to sleep and leads to another task; ticks and calls never do. */
  lemma LockHeldExactly(k: K, ev: Event)
    requires Inv(k) && Enabled(k, ev) && k.kstate == Locked && k.now.Some?
    ensures Next(k, ev).now != k.now <==>
      ev.Force? && Acts(k, ev.id) && (ev.c.next.Some? || k.now != Some(ev.c.first))
    ensures ev.Force? && Acts(k, ev.id) ==>
      Asleep(k.tasks[k.now.value]) && k.tasks[k.now.value].sleepPending && Next(k, ev).kstate == Running
  {
    CoreShaped(k);
    if ev.TickBy? {
      hide Core, TickBody, UpdateFsmState, TickSyncs;
      BodyFrame(k, ev.e);
    } else if ev.Force? {
      HeldForce(k, ev.id, ev.c);
    } else {
      hide Core, Next;
      assert !ev.Start? by { ModeFacts(k); }
      CallsKeepNow(k, ev);
    }
  }

  lemma HeldForce(k: K, id: nat, c: Choice)
    requires Inv(k) && Enabled(k, Force(id, c)) && k.kstate == Locked && k.now.Some?
    ensures Shaped(k)
    ensures var r := ForceSwitch(k, id, c);
      && (r.now != k.now <==> Acts(k, id) && (c.next.Some? || k.now != Some(c.first)))
      && (Acts(k, id) ==>
            Asleep(k.tasks[k.now.value]) && k.tasks[k.now.value].sleepPending && r.kstate == Running)
  {
    hide WaitsInv, Distinct, Replay;
    if ForceBody(k, id).Some? {
      ForceBodyKeeps(k, id);
      var b, n := ForceBody(k, id).value, k.now.value;
      assert SlotInv(k, n) && SlotInv(b, n);
    }
  }

  // ---- nested lock scopes ---------------------------------------------------------------------

  /** What happens inside a ScopedSchedulerLock: further scopes are opened, and events happen. */
  datatype Item = Enter(body: seq<Item>) | Do(ev: Event)

  /** Runs one item; `None` when an event was not enabled. A scope locks, runs its body and restores
      the state its constructor found. */
  ghost function RunItem(k: K, it: Item): Option<K>
    decreases it, 0
  {
    match it
    case Do(ev) => if Inv(k) && Enabled(k, ev) then Some(Next(k, ev)) else None
    case Enter(body) =>
      var (k1, found) := SetSchedulerLock(k, true, false);
      var r := RunItems(k1, body);
      if r.None? then None else Some(SetSchedulerLock(r.value, found == LockWasLocked, false).0)
  }

  ghost function RunItems(k: K, items: seq<Item>): Option<K>
    decreases items, 1
  {
    if items == [] then Some(k) else
    var r := RunItem(k, items[0]);
    if r.None? then None else RunItems(r.value, items[1..])
  }

  /** The kernel when the scope is about to be left. */
  ghost function AtScopeEnd(k: K, body: seq<Item>): Option<K> {
    RunItems(SetSchedulerLock(k, true, false).0, body)
  }

  predicate Lockable(s: KState) { s == Running || s == Locked }

  /** A scope restores the state found at entry, for every body of events and further scopes, if and only if:
      when it took the lock, the kernel is running or locked when it is left; when it could not take the
      lock, the kernel is then in the state in which it was entered. */
  lemma ScopeRestoresExactly(k: K, body: seq<Item>)
    requires RunItem(k, Enter(body)).Some?
    ensures AtScopeEnd(k, body).Some?
    ensures var s := AtScopeEnd(k, body).value;
      RunItem(k, Enter(body)).value.kstate == k.kstate <==>
        if !k.mode.hrt && Lockable(k.kstate) then Lockable(s.kstate) else s.kstate == k.kstate
  {
    ItemsMode(SetSchedulerLock(k, true, false).0, body);
  }

  lemma ItemsMode(k: K, items: seq<Item>)
    requires RunItems(k, items).Some?
    ensures RunItems(k, items).value.mode == k.mode
    decreases items, 1
  {
    hide Inv, Next, Enabled;
    if items != [] {
      ItemMode(k, items[0]);
      ItemsMode(RunItem(k, items[0]).value, items[1..]);
    }
  }

  lemma ItemMode(k: K, it: Item)
    requires RunItem(k, it).Some?
    ensures RunItem(k, it).value.mode == k.mode
    decreases it, 0
  {
    match it
    case Do(ev) => hide Core, Next, Enabled; CoreShaped(k); EventFrame(k, ev);
    case Enter(body) => ItemsMode(SetSchedulerLock(k, true, false).0, body);
  }

  /** No event changes the mode, and only ticks move the clock. */
  lemma EventFrame(k: K, ev: Event)
    requires Inv(k) && Enabled(k, ev)
    ensures Next(k, ev).mode == k.mode && Next(k, ev).ticks == k.ticks + if ev.TickBy? then ev.e else 0
  {
    hide Core, TickBody, UpdateFsmState, ForceBody, StartFrom, Signal;
    CoreShaped(k);
    if ev.TickBy? {
      BodyFrame(k, ev.e);
      FsmKState(TickBody(k, ev.e), ev.c);
    } else if ev.Force? {
      ForceFrame(k, ev.id, ev.c);
    } else if ev.Wake? {
      SignalFrame(k, ev.s, ev.everyone);
    } else if ev.Expel? || ev.Cancel? || ev.Remove? || ev.Exit? {
      EndsFrame(k, ev);
    } else {
      hide Post, EffWeight, ScheduleSleep, WakeTask, TryAllocate, MaxWeight, WorkDone, HrtInit, Bind, WaitList, Without,
        ScheduleTaskRemoval, CancelTaskWait, RemoveTask, ExitTask;
    }
  }

  lemma EndsFrame(k: K, ev: Event)
    requires Shaped(k) && Enabled(k, ev) && (ev.Expel? || ev.Cancel? || ev.Remove? || ev.Exit?)
    ensures Next(k, ev).mode == k.mode && Next(k, ev).ticks == k.ticks
  {
    hide Post, EffWeight, ScheduleSleep, WakeTask, Unbind, WorkDone, WaitList, Without, FindFrom;
  }

  lemma ForceFrame(k: K, id: nat, c: Choice)
    requires Shaped(k) && Fits(k, c)
    ensures ForceSwitch(k, id, c).mode == k.mode && ForceSwitch(k, id, c).ticks == k.ticks
  {
    hide UpdateFsmState, Post;
    if ForceBody(k, id).Some? { FsmKState(ForceBody(k, id).value, c); }
  }

  /** A scope that is not left running or locked: suspending the kernel inside is enough, for the restoring
      call then fails and leaves it suspended. */
  lemma SuspendedScopeIsNotRestored(k: K)
    requires Inv(k) && !k.mode.hrt && k.kstate == Running && Active(k)
    ensures var r := RunItem(k, Enter([Do(Pause(true))]));
      r.Some? && r.value.kstate == Suspended
  {
    hide Core;
    LockKeeps(k, true, false);
    var k1 := SetSchedulerLock(k, true, false).0;
    CoreShaped(k1);
    assert RunItem(k1, Do(Pause(true))) == Some(OnSuspend(k1, true));
    assert [Do(Pause(true))][1..] == [];
  }

  /** A run of events and scopes in which the scheduler stays locked after each event. */
  ghost predicate HeldThrough(k: K, items: seq<Item>)
    decreases items, 1
  {
    items == [] || (HeldItem(k, items[0]) && RunItem(k, items[0]).Some?
                    && HeldThrough(RunItem(k, items[0]).value, items[1..]))
  }

  ghost predicate HeldItem(k: K, it: Item)
    decreases it, 0
  {
    match it
    case Do(ev) => RunItem(k, it).Some? && RunItem(k, it).value.kstate == Locked
    case Enter(body) => HeldThrough(SetSchedulerLock(k, true, false).0, body)
  }

  /** As long as no event releases the lock the current task keeps the CPU, through all nested scopes. */
  lemma HeldKeepsNow(k: K, items: seq<Item>)
    requires k.kstate == Locked && !k.mode.hrt && HeldThrough(k, items)
    ensures RunItems(k, items).Some? && var r := RunItems(k, items).value;
      r.now == k.now && r.kstate == Locked && r.mode == k.mode
    decreases items, 1
  {
    hide Inv, Next, Enabled;
    if items != [] {
      HeldKeepsItem(k, items[0]);
      HeldKeepsNow(RunItem(k, items[0]).value, items[1..]);
    }
  }

  lemma HeldKeepsItem(k: K, it: Item)
    requires k.kstate == Locked && !k.mode.hrt && HeldItem(k, it)
    ensures RunItem(k, it).Some? && var r := RunItem(k, it).value;
      r.now == k.now && r.kstate == Locked && r.mode == k.mode
    decreases it, 0
  {
    hide Core, Next, Enabled;
    match it
    case Do(ev) =>
      CoreShaped(k);
      EventFrame(k, ev);
      if Next(k, ev).now != k.now { LockHoldsCpu(k, ev); }
    case Enter(body) =>
      HeldKeepsNow(SetSchedulerLock(k, true, false).0, body);
  }

  // ---- adding tasks ---------------------------------------------------------------------------

  /** The call may add a task at all in this mode and state. */
  predicate AddAllowed(k: K, hrt: Option<(int, int, int)>) {
    && k.kstate != Inactive
    && if hrt.Some? then k.mode.hrt && HrtTimingOk(hrt.value) && k.now.None?
       else !k.mode.hrt && (k.mode.dynamic || k.now.None?)
  }

  /** AddTask succeeds exactly when the call is allowed, neither the task nor its stack is in use and
      a slot is free; it then binds the first free slot and files the task; a failure changes
      nothing, and its code says which condition failed. */
  lemma AddOutcome(k: K, u: User, hrt: Option<(int, int, int)>)
    requires Inv(k)
    ensures var (r, res) := AddTask(k, u, hrt);
            && (res != AddOk ==> r == k)
            && (res == AddInvalid <==> !AddAllowed(k, hrt))
            && (res == AddDuplicate <==>
                  AddAllowed(k, hrt) && exists j :: 0 <= j < |k.tasks| && Collides(k.tasks[j], u))
            && (res == AddPoolFull ==> forall j :: 0 <= j < |k.tasks| ==> Busy(k.tasks[j]))
            && (res == AddOk ==> exists i :: 0 <= i < |k.tasks| && AddedAt(k, r, u, hrt, i))
  {
    hide Core;
    var (r, res) := AddTask(k, u, hrt);
    if res == AddOk {
      var i := FreeFrom(k.tasks, 0).value;
      FirstFree(k.tasks, 0);
      FreeSlot(k, i);
      hide FreeFrom, Collides;
      assert r.tasks[i] == NewTask(k.mode, u, hrt, k.tasks[i].wait);
      assert AddedAt(k, r, u, hrt, i);
    }
  }

  /** A free slot is as good as new, up to its wait object. */
  lemma FreeSlot(k: K, i: nat)
    requires Inv(k) && i < |k.tasks| && !Busy(k.tasks[i])
    ensures var t := k.tasks[i];
      && !t.removePending && !t.sleepPending && !t.wakePending && !t.suspended && !t.yieldPending
      && !t.suspendPending && t.sleep == 0 && t.hrt == Hrt(0, 0, 0, false)
  {
    assert SlotInv(k, i);
  }

  lemma {:induction false} FirstFree(ts: seq<Task>, i: nat)
    requires i <= |ts| && FreeFrom(ts, i).Some?
    ensures forall j :: i <= j < FreeFrom(ts, i).value ==> Busy(ts[j])
    decreases |ts| - i
  {
    if Busy(ts[i]) { FirstFree(ts, i + 1); }
  }

  /** The task that an add leaves in its slot, from the arguments alone: nothing pending but a start delay, no
      boost, a full slice, and in HRT mode the period and the deadline with no time used yet. Only the wait
      object is the one of the slot. */
  function NewTask(m: Mode, u: User, hrt: Option<(int, int, int)>, w: Wait): Task {
    var (period, deadline, delay) := if hrt.Some? then hrt.value else (0, 0, 0);
    var q := if m.timeslice then u.quantum else 0;
    Task(Some(u), false, delay > 0, false, false, false, false, -delay, w, Hrt(period, deadline, 0, false),
         NO_WEIGHT, NO_WEIGHT, Slice(q, q))
  }

  /** Slot `i` was the first free one and holds the new task; the strategy was told and files it under the
      weight of the task. No other slot changed. */
  ghost predicate AddedAt(k: K, r: K, u: User, hrt: Option<(int, int, int)>, i: int) {
    && 0 <= i < |k.tasks| == |r.tasks| && !Busy(k.tasks[i])
    && r.tasks[i] == NewTask(k.mode, u, hrt, k.tasks[i].wait) && r.now == k.now && r.kstate == k.kstate
    && (forall j :: 0 <= j < i ==> Busy(k.tasks[j]))
    && (forall j :: 0 <= j < |k.tasks| && j != i ==> r.tasks[j] == k.tasks[j])
    && r.log == k.log + [Added(i, u.weight)]
    && r.strat.all == k.strat.all + {i} && i in r.strat.filed && r.strat.filed[i] == u.weight
    && (forall j :: 0 <= j < |k.tasks| ==> !Collides(k.tasks[j], u))
  }

  /** In every reachable state bound tasks and their stacks are pairwise distinct, the strategy
      manages exactly the busy slots, and the current task is bound. */
  lemma Lifecycle(mode: Mode, n: nat, evs: seq<Event>, r: K)
    requires ModeOk(mode) && n > 0 && Leads(NewKernel(mode, n), evs, r)
    ensures Distinct(r.tasks)
    ensures r.strat.all == set i | 0 <= i < |r.tasks| && Busy(r.tasks[i])
    ensures r.now.Some? ==> r.now.value < |r.tasks| && Busy(r.tasks[r.now.value])
  {
    RunsKeep(mode, n, evs, r);
    hide Leads, WaitsInv, Replay;
    forall i | 0 <= i < |r.tasks| ensures i in r.strat.all <==> Busy(r.tasks[i]) { assert SlotInv(r, i); }
  }
}
