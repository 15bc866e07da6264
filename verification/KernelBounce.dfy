/** Hard real-time tasks that are woken from outside: exactly which ticks wake a completed job, which calls
    lead to such a tick, and what it breaks. */
module KernelBounce {
  import opened KernelTypes
  import opened KernelSpec
  import opened KernelInv
  import opened KernelSync
  import opened KernelRuns
  import opened KernelCalls
  import opened KernelTheorems
  import opened KernelTick
  import opened KernelSched
  import opened KernelFrame
  import opened KernelTiming

  /** Only the current task has a sleep pending, and no completed job runs before its next period. */
  ghost predicate Sound(k: K) {
    && (forall i :: 0 <= i < |k.tasks| ==> (k.tasks[i].sleepPending && k.now.Some? ==> k.now == Some(i)))
    && (forall i :: 0 <= i < |k.tasks| ==> (k.tasks[i].hrt.done ==> Asleep(k.tasks[i])))
  }

  lemma InvIsSound(k: K)
    requires Inv(k) && k.mode.hrt
    ensures Sound(k)
  {
    hide WaitsInv, Distinct, Replay;
    forall i | 0 <= i < |k.tasks|
      ensures k.tasks[i].sleepPending && k.now.Some? ==> k.now == Some(i)
      ensures k.tasks[i].hrt.done ==> Asleep(k.tasks[i])
    {
      assert SlotInv(k, i);
    }
  }

  // ---- the sweep over a completed job with a pending wake -------------------------------------

  /** Something keeps the current task `n` from being freed when its slot is visited: it is not exiting, the
      trap is inactive, or task `j` is still bound then. */
  ghost predicate Stays(k: K, i: nat, n: nat, j: nat)
    requires n < |k.tasks|
  {
    !k.tasks[n].removePending || k.fsm != Sleeping ||
    (j < |k.tasks| && j != n && j in k.strat.all &&
     (j < i || j > n || !k.tasks[j].removePending || !Asleep(k.tasks[j])))
  }

  lemma SlotElsewhere(k: K, i: nat, e: int, j: nat)
    requires i < |k.tasks| && j != i
    ensures j in TickSlot(k, i, e).strat.filed <==> j in k.strat.filed
    ensures j in TickSlot(k, i, e).strat.all <==> j in k.strat.all
  {
  }

  lemma SlotStays(k: K, i: nat, e: int)
    requires i < |k.tasks| && i in k.strat.all && (!k.tasks[i].removePending || !Asleep(k.tasks[i]))
    ensures i in TickSlot(k, i, e).strat.all
  {
  }

  lemma {:induction false} SweptFiled(s: Sweep, i: nat, e: int, j: nat)
    requires j < i <= |s.k.tasks|
    ensures j in SweepFrom(s, i, e).k.strat.filed <==> j in s.k.strat.filed
    ensures j in SweepFrom(s, i, e).k.strat.all <==> j in s.k.strat.all
    decreases |s.k.tasks| - i
  {
    hide TickSlot;
    if i < |s.k.tasks| {
      SlotElsewhere(s.k, i, e, j);
      SweptFiled(SweepSlot(s, i, e), i + 1, e, j);
    }
  }

  /** The visit that wakes the completed job: reported asleep if that was due, then awake. */
  lemma SlotBounce(k: K, n: nat, e: int, j: nat)
    requires n < |k.tasks| && k.now == Some(n) && n in k.strat.all && WakesDone(k.tasks[n], e) && Stays(k, n, n, j)
    ensures var r := TickSlot(k, n, e);
      r.tasks[n].hrt == k.tasks[n].hrt && !Asleep(r.tasks[n]) && n in r.strat.filed && n in r.strat.all
  {
    if j in k.strat.all && j != n { TwoMembers(k.strat.all, n, j); }
    assert !(k.tasks[n].removePending && Removable(k, n));
    var t := k.tasks[n];
    var k1 := if k.mode.noSleepYield then SetTask(k, n, t.(yieldPending := false)) else k;
    var k2 := if t.sleepPending then DeliverSleep(k1, n) else k1;
    hide AdvanceSleep, Removable, EffWeight;
    AdvanceWakes(k2, n, e);
    assert TickSlot(k, n, e) == AdvanceSleep(k2, n, e);
  }

  lemma AdvanceWakes(k: K, n: nat, e: int)
    requires n < |k.tasks| && !k.tasks[n].suspendPending && k.tasks[n].sleep + e >= 0
    ensures var r := AdvanceSleep(k, n, e);
      r.tasks[n].hrt == k.tasks[n].hrt && !Asleep(r.tasks[n]) && n in r.strat.filed && r.strat.all == k.strat.all
  {
  }

  lemma TwoMembers(s: set<nat>, a: nat, b: nat)
    requires a in s && b in s && a != b
    ensures |s| != 1
  {
    if |s| == 1 { SingletonSet(s, a); }
  }

  lemma {:induction false} SweepBounce(s: Sweep, i: nat, e: int, n: nat, j: nat)
    requires i <= n < |s.k.tasks| && s.k.now == Some(n) && n in s.k.strat.all && WakesDone(s.k.tasks[n], e)
    requires Stays(s.k, i, n, j)
    ensures var r := SweepFrom(s, i, e).k;
      r.tasks[n].hrt == s.k.tasks[n].hrt && !Asleep(r.tasks[n]) && n in r.strat.filed && n in r.strat.all
    decreases n - i
  {
    TickSlotIs(s.k, i, e);
    var s1 := SweepSlot(s, i, e);
    if i == n {
      SlotBounce(s.k, n, e, j);
      hide TickSlot, SlotTask;
      SweptStays(s1, n + 1, e, n);
      SweptFiled(s1, n + 1, e, n);
    } else {
      SlotElsewhere(s.k, i, e, n);
      if j == i {
        if s.k.tasks[n].removePending && s.k.fsm == Sleeping { SlotStays(s.k, i, e); }
      } else {
        SlotElsewhere(s.k, i, e, j);
      }
      hide TickSlot, SlotTask;
      SweepBounce(s1, i + 1, e, n, j);
    }
  }

  /** The task that keeps the current one bound. */
  lemma Keeper(k: K, e: int) returns (j: nat)
    requires Inv(k) && k.mode.hrt && k.now.Some? && !BounceFree(k, 0, e)
    ensures k.now.value < |k.tasks| && k.now.value in k.strat.all && WakesDone(k.tasks[k.now.value], e)
    ensures Stays(k, 0, k.now.value, j)
  {
    hide WaitsInv, Distinct, Replay;
    var n := k.now.value;
    j := 0;
    if k.tasks[n].removePending && k.fsm == Sleeping {
      var x :| 0 <= x < |k.tasks| && x != n && Busy(k.tasks[x])
        && !(x < n && k.tasks[x].removePending && Asleep(k.tasks[x]));
      assert SlotInv(k, x);
      j := x;
    }
  }

  /** A tick that is not free of bounces leaves the completed job of the current task awake and runnable. */
  lemma BodyBounces(k: K, e: int)
    requires Inv(k) && k.mode.hrt && k.now.Some? && e >= 0 && !BounceFree(k, 0, e)
    ensures Shaped(k) && k.now.value < |k.tasks|
    ensures var b, n := TickBody(k, e), k.now.value;
      && b.tasks[n].hrt == k.tasks[n].hrt && b.tasks[n].hrt.done && !Asleep(b.tasks[n])
      && n in b.strat.filed && n in b.strat.all && b.kstate != Locked
  {
    var n := k.now.value;
    var j := Keeper(k, e);
    HrtSync(k, e);
    var k0 := k.(ticks := k.ticks + e);
    var k1 := UpdateSyncObjects(k0, e);
    hide Core, UpdateSyncObjects, SweepFrom, UpdateTimeslice;
    CoreShaped(k);
    SweepBounce(Sweep(k1, if k1.mode.tickless then TICKLESS_TICKS_MAX else 1), 0, e, n, j);
    NotSliced(UpdateTaskState(k1, e).k, e);
    BodyFrame(k, e);
  }

  lemma NotSliced(k: K, e: int)
    requires !k.mode.timeslice
    ensures UpdateTimeslice(k, e) == k
  {
  }

  /** In HRT mode nothing waits, so the sync objects change no task and no set of the strategy. */
  lemma HrtSync(k: K, e: int)
    requires Inv(k) && k.mode.hrt && e >= 0
    ensures Shaped(k) && !k.mode.timeslice && k.kstate != Locked
    ensures var k1 := UpdateSyncObjects(k.(ticks := k.ticks + e), e);
      k1.tasks == k.tasks && SameTasks(k, k1)
  {
    var k0 := k.(ticks := k.ticks + e);
    ClockKeeps(k, k0);
    SyncTick(k0, e);
    hide WaitsInv, Distinct, Replay, UpdateSyncObjects;
    forall j | 0 <= j < |k.tasks| ensures UpdateSyncObjects(k0, e).tasks[j] == k.tasks[j] { assert SlotInv(k, j); }
    assert UpdateSyncObjects(k0, e).tasks == k.tasks;
  }

  // ---- exactly which ticks are safe -----------------------------------------------------------

  /** A tick is sound for every legal answer of the strategy if and only if the current task is not a
      completed job whose sleep the tick ends, a condition on its flags and its sleep counter before the
      tick. */
  lemma BounceExact(k: K, e: int)
    requires Inv(k) && k.mode.hrt && k.now.Some? && e >= 0
    ensures Shaped(k)
    ensures (forall c :: Fits(k, c) && LegalChoice(TickBody(k, e).strat, c) ==> Sound(Tick(k, e, c))) <==>
      BounceFree(k, 0, e)
  {
    hide Core, TickBody, Tick, BounceFree, Sound;
    CoreShaped(k);
    if BounceFree(k, 0, e) {
      forall c | Fits(k, c) && LegalChoice(TickBody(k, e).strat, c) ensures Sound(Tick(k, e, c)) {
        TickKeeps(k, e, c);
        TickMode(k, e, c);
        InvIsSound(Tick(k, e, c));
      }
    } else {
      BodyBounces(k, e);
      var n := k.now.value;
      var c := Choice(Some(n), n);
      assert Fits(k, c) && LegalChoice(TickBody(k, e).strat, c);
      BounceRuns(k, e);
      assert !Sound(Tick(k, e, c));
    }
  }

  lemma TickMode(k: K, e: int, c: Choice)
    requires Shaped(k) && Fits(k, c)
    ensures Tick(k, e, c).mode == k.mode
  {
    hide TickBody, UpdateFsmState;
    BodyFrame(k, e);
    FsmKState(TickBody(k, e), c);
  }

  /** Selected again, the completed job simply goes on. */
  lemma BounceRuns(k: K, e: int)
    requires Inv(k) && k.mode.hrt && k.now.Some? && e >= 0 && !BounceFree(k, 0, e)
    ensures Shaped(k) && Fits(k, Choice(k.now, k.now.value))
    ensures var r, n := Tick(k, e, Choice(k.now, k.now.value)), k.now.value;
      n < |r.tasks| && r.now == Some(n) && r.tasks[n].hrt.done && !Asleep(r.tasks[n]) && !Sound(r)
  {
    BodyBounces(k, e);
    BodyFrame(k, e);
    ModeFacts(k);
    hide Core, TickBody;
  }

  /** With another task selected and time left in the period, the woken job is put to sleep while it is not
      the current task any more: it stays in the runnable set although it sleeps. */
  lemma BounceBreaksAgreement(k: K, e: int, c: Choice)
    requires Inv(k) && k.mode.hrt && k.now.Some? && e >= 0 && !BounceFree(k, 0, e) && k.fsm != Sleeping
    requires Shaped(k) && Fits(k, c) && c.next.Some? && c.next != k.now
    requires k.tasks[k.now.value].hrt.duration < k.tasks[k.now.value].hrt.period
    ensures var r, n := Tick(k, e, c), k.now.value;
      n < |r.tasks| && r.now == c.next && n in r.strat.filed && Asleep(r.tasks[n]) && r.tasks[n].sleepPending
  {
    BodyBounces(k, e);
    BodyFrame(k, e);
    ModeFacts(k);
    hide Core, TickBody;
  }

  // ---- exactly which calls lead to such a tick ------------------------------------------------

  /** The call leaves a completed job that the next single tick wakes: it wakes the completed job of the
      current task, it lifts the suspension that held such a wake back, or it completes a job while an old
      wake is still pending. */
  ghost predicate WakesCompleted(k: K, ev: Event) {
    && k.now.Some? && k.now.value < |k.tasks|
    && var t := k.tasks[k.now.value];
       match ev
       case Cancel(id) =>
         && Find(k, id) == k.now && t.hrt.done && !t.suspended && !t.suspendPending
         && !(t.removePending && k.fsm == Sleeping && Lonely(k, 0, k.now.value))
       case Resume(id) =>
         && Find(k, id) == k.now && t.hrt.done && !t.removePending
         && if t.suspended then !t.suspendPending else t.suspendPending && WakesDone(t.(suspendPending := false), 1)
       case Yield(_) => t.wakePending
       case _ => false
  }

  /** In HRT mode, for every call of a task, an interrupt handler or the platform: the next single tick is
      safe afterwards if and only if the call is not one of those. Before the start every call is. */
  lemma CallExact(k: K, ev: Event)
    requires Inv(k) && k.mode.hrt && Enabled(k, ev) && BounceFree(k, 0, 1) && !ev.TickBy? && !ev.Force? && !ev.Start?
    ensures BounceFree(Next(k, ev), 0, 1) <==> !WakesCompleted(k, ev)
  {
    if k.now.None? {
      hide Core, Next;
      CoreShaped(k);
      CallsKeepNow(k, ev);
    } else if ev.Cancel? {
      CancelExact(k, ev.id);
    } else if ev.Resume? {
      ResumeExact(k, ev.id);
    } else if ev.Yield? {
      YieldExact(k, ev.handled);
    } else {
      hide Core, Next;
      OtherCalls(k, ev);
    }
  }

  /** The same in terms of the next tick: after the call it is sound for every legal answer if and only if the
      call is not one of those. */
  lemma CallIsSafeExactly(k: K, ev: Event)
    requires Inv(k) && k.mode.hrt && k.now.Some? && Enabled(k, ev) && BounceFree(k, 0, 1)
    requires !ev.TickBy? && !ev.Force? && !ev.Start?
    ensures var r := Next(k, ev);
      && Inv(r) && Shaped(r)
      && ((forall c :: Fits(r, c) && LegalChoice(TickBody(r, 1).strat, c) ==> Sound(Tick(r, 1, c))) <==>
          !WakesCompleted(k, ev))
  {
    hide Core, Next, TickBody, Tick, BounceFree, Sound, WakesCompleted, Enabled;
    CoreShaped(k);
    NextKeeps(k, ev);
    var r := Next(k, ev);
    CoreShaped(r);
    CallsKeepNow(k, ev);
    ClockSteps(k, ev);
    CallExact(k, ev);
    BounceExact(r, 1);
  }

  lemma CancelExact(k: K, id: nat)
    requires Inv(k) && k.mode.hrt && k.now.Some? && BounceFree(k, 0, 1)
    ensures BounceFree(CancelTaskWait(k, id), 0, 1) <==> !WakesCompleted(k, Cancel(id))
  {
    hide WaitsInv, Distinct, Replay;
    var s := Find(k, id);
    assert SlotInv(k, k.now.value);
    if s.Some? {
      assert SlotInv(k, s.value);
      var r := CancelTaskWait(k, id);
      LonelySame(k, r, k.now.value);
    }
  }

  lemma ResumeExact(k: K, id: nat)
    requires Inv(k) && k.mode.hrt && k.now.Some? && BounceFree(k, 0, 1)
    ensures BounceFree(ResumeTask(k, id).0, 0, 1) <==> !WakesCompleted(k, Resume(id))
  {
    hide WaitsInv, Distinct, Replay;
    var s, n := Find(k, id), k.now.value;
    assert SlotInv(k, n);
    if s.Some? {
      var i := s.value;
      assert SlotInv(k, i);
      var r := ResumeTask(k, id).0;
      assert r == SetTask(k, i, r.tasks[i]) by { assert k.tasks[i := k.tasks[i]] == k.tasks; }
      assert Busy(r.tasks[i]) && r.tasks[i].removePending == k.tasks[i].removePending
        && Asleep(r.tasks[i]) == Asleep(k.tasks[i]);
      LonelySame(k, r, n);
      hide Lonely, SlotInv, ResumeTask;
      if i == n { ResumeNow(k, id); }
    }
  }

  lemma ResumeNow(k: K, id: nat)
    requires k.mode.hrt && k.now.Some? && k.now.value < |k.tasks| && Find(k, id) == k.now
    requires var t := k.tasks[k.now.value];
      (t.hrt.done ==> Asleep(t)) && (WakesDone(t, 1) ==> t.removePending)
    ensures var t, u := k.tasks[k.now.value], ResumeTask(k, id).0.tasks[k.now.value];
      WakesDone(u, 1) && !u.removePending <==> WakesCompleted(k, Resume(id))
  {
    hide FindFrom;
  }

  lemma LonelySame(k: K, r: K, n: nat)
    requires |r.tasks| == |k.tasks| && forall j :: 0 <= j < |k.tasks| ==>
      Busy(r.tasks[j]) == Busy(k.tasks[j]) && r.tasks[j].removePending == k.tasks[j].removePending
      && Asleep(r.tasks[j]) == Asleep(k.tasks[j])
    ensures Lonely(r, 0, n) == Lonely(k, 0, n)
  {
    forall j | 0 <= j < |k.tasks|
      ensures Busy(r.tasks[j]) == Busy(k.tasks[j]) && r.tasks[j].removePending == k.tasks[j].removePending
        && Asleep(r.tasks[j]) == Asleep(k.tasks[j]) {}
  }

  lemma YieldExact(k: K, handled: bool)
    requires Inv(k) && k.mode.hrt && Active(k) && BounceFree(k, 0, 1)
    ensures BounceFree(SwitchToNext(k, handled), 0, 1) <==> !WakesCompleted(k, Yield(handled))
  {
    hide WaitsInv, Distinct, Replay;
    assert SlotInv(k, k.now.value);
  }

  /** Calls that wake nothing and complete nothing. */
  predicate Plain(ev: Event) {
    !ev.TickBy? && !ev.Force? && !ev.Start? && !ev.Stop? && !ev.Cancel? && !ev.Resume? && !ev.Yield?
  }

  lemma OtherCalls(k: K, ev: Event)
    requires Inv(k) && k.mode.hrt && k.now.Some? && Enabled(k, ev) && BounceFree(k, 0, 1) && Plain(ev)
    ensures BounceFree(Next(k, ev), 0, 1)
  {
    CoreShaped(k);
    PlainFrame(k, ev);
    hide Core, Next, Enabled;
    var r, n := Next(k, ev), k.now.value;
    if WakesDone(r.tasks[n], 1) {
      PlainSlot(k, ev, n);
      forall j | 0 <= j < |r.tasks| && j != n && Busy(r.tasks[j])
        ensures j < n && r.tasks[j].removePending && Asleep(r.tasks[j])
      {
        PlainSlot(k, ev, j);
      }
    }
  }

  lemma PlainFrame(k: K, ev: Event)
    requires Inv(k) && k.mode.hrt && k.now.Some? && Enabled(k, ev) && Plain(ev)
    ensures var r := Next(k, ev); r.now == k.now && r.mode == k.mode && r.fsm == k.fsm && |r.tasks| == |k.tasks|
  {
    CoreShaped(k);
    hide Core, Post, EffWeight, ScheduleSleep, TryAllocate, MaxWeight, WakeEach, Unbind, WorkDone, HrtInit, Bind,
      WaitList, Without;
    if ev.Wake? {
      WakeEachFrame(k, WaitList(k, ev.s));
    } else if NamesTask(ev) {
      NamedFrame(k, ev);
    }
  }

  lemma NamedFrame(k: K, ev: Event)
    requires Shaped(k) && Enabled(k, ev) && k.now.Some? && Plain(ev) && NamesTask(ev)
    ensures var r := Next(k, ev); r.now == k.now && r.mode == k.mode && r.fsm == k.fsm && |r.tasks| == |k.tasks|
  {
    if ev.Expel? || ev.Remove? {
      hide Post, EffWeight, ScheduleSleep, Unbind, WorkDone, WaitList, Without, FindFrom;
    } else {
      hide Post, EffWeight, ScheduleSleep, MaxWeight, BaseWeight, WaitList, Without, FindFrom, RemoveTask,
        ScheduleTaskRemoval;
    }
  }

  /** What such a call may do to a slot. */
  lemma PlainSlot(k: K, ev: Event, j: nat)
    requires Inv(k) && k.mode.hrt && k.now.Some? && Enabled(k, ev) && Plain(ev) && j < |k.tasks|
    ensures j < |Next(k, ev).tasks|
    ensures var t, u := k.tasks[j], Next(k, ev).tasks[j];
      && (!Busy(t) ==> !Busy(u)) && (WakesDone(u, 1) ==> WakesDone(t, 1))
      && (t.removePending && Asleep(t) ==> u.removePending && Asleep(u))
  {
    assert SlotInv(k, j);
    if ev.Wake? {
      HrtWake(k, ev.s, ev.everyone);
    } else if ev.Expel? || ev.Exit? {
      HrtExpel(k, ev, j);
    } else if NamesTask(ev) {
      NamedSlot(k, ev, j);
    } else {
      hide Core, Post, EffWeight, TryAllocate, MaxWeight, Unbind, WorkDone, HrtInit, Bind, WaitList, Without, FindFrom,
        ScheduleRemoval;
    }
  }

  lemma NamedSlot(k: K, ev: Event, j: nat)
    requires Shaped(k) && Enabled(k, ev) && k.now.Some? && Plain(ev) && NamesTask(ev) && !ev.Expel? && j < |k.tasks|
    requires k.tasks[j].hrt.done ==> Asleep(k.tasks[j])
    ensures j < |Next(k, ev).tasks|
    ensures var t, u := k.tasks[j], Next(k, ev).tasks[j];
      && (!Busy(t) ==> !Busy(u)) && (WakesDone(u, 1) ==> WakesDone(t, 1))
      && (t.removePending && Asleep(t) ==> u.removePending && Asleep(u))
  {
    if ev.Remove? || ev.Suspend? {
      hide Post, EffWeight, FindFrom;
    } else {
      hide Post, EffWeight, MaxWeight, BaseWeight, WaitList, Without, FindFrom, RemoveTask, SuspendTask, ScheduleSleep;
    }
  }

  lemma HrtWake(k: K, s: nat, everyone: bool)
    requires Inv(k) && k.mode.hrt
    ensures Shaped(k) && Signal(k, s, everyone) == k
  {
    WaitListWaiting(k, s);
    if WaitList(k, s) != [] {
      var x := WaitList(k, s)[0];
      assert x in WaitList(k, s) && SlotInv(k, x);
    }
  }

  lemma HrtExpel(k: K, ev: Event, j: nat)
    requires Inv(k) && k.mode.hrt && k.now.Some? && Enabled(k, ev) && (ev.Expel? || ev.Exit?) && j < |k.tasks|
    ensures j < |Next(k, ev).tasks|
    ensures var t, u := k.tasks[j], Next(k, ev).tasks[j];
      && (!Busy(t) ==> !Busy(u)) && (WakesDone(u, 1) ==> WakesDone(t, 1))
      && (t.removePending && Asleep(t) ==> u.removePending && Asleep(u))
  {
    assert SlotInv(k, j);
    var i := if ev.Exit? then k.now.value else if Find(k, ev.id).Some? then Find(k, ev.id).value else j;
    assert SlotInv(k, i);
    hide Core, Post, EffWeight;
  }

  // ---- the wake that is pending from before the start -----------------------------------------

  /** Before the start, Cancel and Resume leave a wake pending exactly for a task whose start delay or
      suspension has not been delivered yet. */
  lemma EarlyWake(k: K, id: nat, i: nat)
    requires Inv(k) && k.now.None? && i < |k.tasks|
    ensures CancelTaskWait(k, id).tasks[i].wakePending <==>
      k.tasks[i].wakePending || (Find(k, id) == Some(i) && k.tasks[i].sleepPending && !k.tasks[i].suspended)
    ensures ResumeTask(k, id).0.tasks[i].wakePending <==>
      k.tasks[i].wakePending || (Find(k, id) == Some(i) && k.tasks[i].sleepPending && k.tasks[i].suspended
                                 && !k.tasks[i].removePending)
  {
    assert SlotInv(k, i);
  }

  /** The start clears the pending sleep but not the pending wake. */
  lemma EarlyWakeSurvives(k: K, c: Choice, i: nat)
    requires Inv(k) && Enabled(k, Start(c)) && i < |k.tasks|
    ensures var t := OnStart(k, c).tasks[i]; t.wakePending == k.tasks[i].wakePending && !t.sleepPending
  {
    StartFromKeeps(k, 0);
    hide WaitsInv, Distinct, Replay, StartFrom;
  }

  const HRT_ONLY := Mode(false, true, false, false, false, false, false)
  const USER_0 := User(0, 0, 0, 0)
  const USER_1 := User(1, 1, 0, 0)

  /** A task of period 10 that is bound to user `u`. */
  function Periodic(u: User, sleepPending: bool, wakePending: bool, sleep: int, duration: int, done: bool): Task {
    FREE_TASK.(user := Some(u), rtWeight := NO_WEIGHT, baseWeight := NO_WEIGHT, sleepPending := sleepPending,
      wakePending := wakePending, sleep := sleep, hrt := Hrt(10, 10, duration, done))
  }

  function TwoTasks(a: Task, b: Task, now: Option<nat>, fsm: Fsm, kstate: KState, ticks: int, filed: map<nat, int>,
    log: seq<Note>): K
  {
    K(HRT_ONLY, [a, b], now, fsm, kstate, ticks, [], map[], Ledger({0, 1}, filed, {}, map[]), log)
  }

  /** Both tasks added, the first with a start delay. */
  function ExampleAdded(): K {
    TwoTasks(Periodic(USER_0, true, false, -5, 0, false), Periodic(USER_1, false, false, 0, 0, false), None, FsmNone,
      Ready, 0, map[0 := 0, 1 := 0], [Added(0, 0), Added(1, 0)])
  }

  /** After the early cancel and the start. */
  function ExampleStarted(): K {
    TwoTasks(Periodic(USER_0, false, true, -1, 0, false), Periodic(USER_1, false, false, 0, 0, false), Some(1),
      Switching, Running, 0, map[1 := 0], [Added(0, 0), Added(1, 0), Slept(0, 0)])
  }

  /** After a tick that selects the first task. */
  function ExampleRunning(): K {
    TwoTasks(Periodic(USER_0, false, true, 0, 0, false), Periodic(USER_1, false, false, 0, 1, false), Some(0),
      Switching, Running, 1, map[1 := 0, 0 := 0], [Added(0, 0), Added(1, 0), Slept(0, 0), Woke(0, 0)])
  }

  /** After its completion. */
  function ExampleDone(): K {
    TwoTasks(Periodic(USER_0, true, true, -1, 0, true), Periodic(USER_1, false, false, 0, 1, false), Some(0),
      Switching, Running, 1, map[1 := 0, 0 := 0], [Added(0, 0), Added(1, 0), Slept(0, 0), Woke(0, 0)])
  }

  lemma AddFirst(k: K)
    requires k == NewKernel(HRT_ONLY, 2).(kstate := Ready)
    ensures AddTask(k, USER_0, Some((10, 10, 5))).0 ==
      k.(tasks := [Periodic(USER_0, true, false, -5, 0, false), FREE_TASK],
         strat := Ledger({0}, map[0 := 0], {}, map[]), log := [Added(0, 0)])
  {
    assert k.tasks == [FREE_TASK, FREE_TASK];
    assert TryAllocate(k, USER_0) == (AddOk, Some(0));
    var t := Periodic(USER_0, true, false, -5, 0, false);
    assert HrtInit(Bind(k.mode, FREE_TASK, USER_0), 10, 10, 5) == t;
    assert [FREE_TASK, FREE_TASK][0 := t] == [t, FREE_TASK];
    assert {} + {0} == {0} && [] + [Added(0, 0)] == [Added(0, 0)];
  }

  lemma AddSecond(k: K)
    requires k == NewKernel(HRT_ONLY, 2).(kstate := Ready,
      tasks := [Periodic(USER_0, true, false, -5, 0, false), FREE_TASK],
      strat := Ledger({0}, map[0 := 0], {}, map[]), log := [Added(0, 0)])
    ensures AddTask(k, USER_1, Some((10, 10, 0))).0 == ExampleAdded()
  {
    assert FreeFrom(k.tasks, 1) == Some(1);
    assert TryAllocate(k, USER_1) == (AddOk, Some(1));
    var a, t := k.tasks[0], Periodic(USER_1, false, false, 0, 0, false);
    assert HrtInit(Bind(k.mode, FREE_TASK, USER_1), 10, 10, 0) == t;
    assert [a, FREE_TASK][1 := t] == [a, t];
    assert {0} + {1} == {0, 1} && [Added(0, 0)] + [Added(1, 0)] == [Added(0, 0), Added(1, 0)];
  }

  lemma CancelAndStart(k: K)
    requires k == ExampleAdded()
    ensures Shaped(CancelTaskWait(k, 0)) && Enabled(CancelTaskWait(k, 0), Start(Choice(Some(1), 1)))
    ensures OnStart(CancelTaskWait(k, 0), Choice(Some(1), 1)) == ExampleStarted()
  {
    assert Find(k, 0) == Some(0);
    var t := Periodic(USER_0, true, true, -1, 0, false);
    var k1 := CancelTaskWait(k, 0);
    assert k1 == SetTask(k, 0, t) && k1.tasks == [t, k.tasks[1]];
    var t1 := t.(sleepPending := false);
    var k2 := Tell(SetTask(k1, 0, t1), Slept(0, 0));
    assert k2.tasks == [t1, k.tasks[1]];
    assert StartFrom(k2, 2) == k2 && StartFrom(k2, 1) == k2 && StartFrom(k1, 0) == k2;
    assert map[0 := 0, 1 := 0] - {0} == map[1 := 0];
    assert k2.log == [Added(0, 0), Added(1, 0), Slept(0, 0)];
  }

  lemma TickExample(k: K)
    requires k == ExampleStarted()
    ensures Shaped(k) && Enabled(k, TickBy(1, Choice(Some(0), 0)))
    ensures Tick(k, 1, Choice(Some(0), 0)) == ExampleRunning()
  {
    var k1 := k.(ticks := 1);
    var a, b := Periodic(USER_0, false, true, 0, 0, false), Periodic(USER_1, false, false, 0, 1, false);
    var k2 := TickSlot(k1, 0, 1);
    assert k2 == Tell(SetTask(k1, 0, a), Woke(0, 0)) && k2.tasks == [a, k.tasks[1]];
    var k3 := TickSlot(k2, 1, 1);
    assert k3.tasks == [a, b] && k3 == k2.(tasks := [a, b]);
    assert SweepSlot(Sweep(k1, 1), 0, 1) == Sweep(k2, 1) && SweepSlot(Sweep(k2, 1), 1, 1) == Sweep(k3, 1);
    assert SweepFrom(Sweep(k3, 1), 2, 1) == Sweep(k3, 1) && SweepFrom(Sweep(k2, 1), 1, 1) == Sweep(k3, 1);
    assert UpdateTaskState(k1, 1) == Sweep(k3, 1);
    assert UpdateSyncObjects(k1, 1) == k1 && UpdateTimeslice(k3, 1) == k3;
    assert TickBody(k, 1) == k3;
    assert k3.log == [Added(0, 0), Added(1, 0), Slept(0, 0), Woke(0, 0)];
  }

  lemma YieldExample(k: K)
    requires k == ExampleRunning()
    ensures Shaped(k) && Enabled(k, Yield(false)) && SwitchToNext(k, false) == ExampleDone()
  {
    var d := Periodic(USER_0, true, true, -1, 0, true);
    assert SwitchToNext(k, false).tasks == [d, k.tasks[1]];
  }

  lemma LastTick(k: K)
    requires k == ExampleDone()
    ensures Shaped(k) && 1 in TickBody(k, 1).strat.filed && 1 in TickBody(k, 1).strat.all
    ensures !BounceFree(k, 0, 1)
  {
    var k1 := k.(ticks := 2);
    assert UpdateSyncObjects(k1, 1) == k1;
    var k2 := TickSlot(k1, 0, 1);
    SlotElsewhere(k1, 0, 1, 1);
    var k3 := TickSlot(k2, 1, 1);
    assert k2.tasks[1] == k.tasks[1];
    assert 1 in k3.strat.filed && 1 in k3.strat.all;
    assert SweepSlot(Sweep(k1, 1), 0, 1) == Sweep(k2, 1) && SweepSlot(Sweep(k2, 1), 1, 1) == Sweep(k3, 1);
    assert SweepFrom(Sweep(k3, 1), 2, 1) == Sweep(k3, 1) && SweepFrom(Sweep(k2, 1), 1, 1) == Sweep(k3, 1);
    assert UpdateTaskState(k1, 1) == Sweep(k3, 1);
  }

  /** A run without any outside wake of a completed job that ends with the agreement broken: the first of
      two tasks is cancelled before the start, the start, one tick, its first completion, and a tick that
      selects the other task leave it asleep, not current and runnable. */
  lemma EarlyCancelBreaksAgreement()
    ensures
      Leads(NewKernel(HRT_ONLY, 2), ExampleEvents(), ExampleDone())
    ensures
      var k, c := ExampleDone(), Choice(Some(1), 1);
      && Shaped(k) && Fits(k, c) && LegalChoice(TickBody(k, 1).strat, c)
      && var r := Tick(k, 1, c);
         r.now == Some(1) && 0 in r.strat.filed && Asleep(r.tasks[0]) && r.tasks[0].sleepPending
  {
    hide Leads, Tick, TickBody, Inv, ExampleEvents, NewKernel, BounceFree;
    ExampleRun();
    LastTick(ExampleDone());
    ExampleInv();
    BounceBreaksAgreement(ExampleDone(), 1, Choice(Some(1), 1));
  }

  lemma ExampleInv()
    ensures Inv(ExampleDone())
  {
    hide Leads, Inv, ExampleEvents;
    ExampleRun();
    NewInv(HRT_ONLY, 2);
    LeadsKeeps(NewKernel(HRT_ONLY, 2), ExampleEvents(), ExampleDone());
  }

  function ExampleEvents(): seq<Event> {
    [Initialize, Add(USER_0, Some((10, 10, 5))), Add(USER_1, Some((10, 10, 0))), Cancel(0),
     Start(Choice(Some(1), 1)), TickBy(1, Choice(Some(0), 0)), Yield(false)]
  }

  lemma ExampleRun()
    ensures Leads(NewKernel(HRT_ONLY, 2), ExampleEvents(), ExampleDone())
  {
    hide AddTask, CancelTaskWait, OnStart, Tick, SwitchToNext, TickBody, StartFrom;
    var evs, k0 := ExampleEvents(), NewKernel(HRT_ONLY, 2);
    var k1 := k0.(kstate := Ready);
    AddFirst(k1);
    var k2 := AddTask(k1, USER_0, Some((10, 10, 5))).0;
    AddSecond(k2);
    ExampleRest();
    LeadsStep(k2, evs[2], evs[3..], ExampleDone());
    assert [evs[2]] + evs[3..] == evs[2..];
    LeadsStep(k1, evs[1], evs[2..], ExampleDone());
    assert [evs[1]] + evs[2..] == evs[1..];
    LeadsStep(k0, evs[0], evs[1..], ExampleDone());
    assert [evs[0]] + evs[1..] == evs;
  }

  lemma ExampleRest()
    ensures Leads(ExampleAdded(), ExampleEvents()[3..], ExampleDone())
  {
    hide AddTask, CancelTaskWait, OnStart, Tick, SwitchToNext, TickBody, StartFrom, Leads;
    CancelAndStart(ExampleAdded());
    TickExample(ExampleStarted());
    ExampleEnd();
    var t: seq<Event> := [TickBy(1, Choice(Some(0), 0)), Yield(false)];
    LeadsStep(ExampleStarted(), TickBy(1, Choice(Some(0), 0)), [Yield(false)], ExampleDone());
    assert [TickBy(1, Choice(Some(0), 0))] + [Yield(false)] == t;
    LeadsStep(CancelTaskWait(ExampleAdded(), 0), Start(Choice(Some(1), 1)), t, ExampleDone());
    LeadsStep(ExampleAdded(), Cancel(0), [Start(Choice(Some(1), 1))] + t, ExampleDone());
    assert [Cancel(0)] + ([Start(Choice(Some(1), 1))] + t) == ExampleEvents()[3..];
  }

  lemma ExampleEnd()
    ensures Leads(ExampleRunning(), [Yield(false)], ExampleDone())
  {
    hide SwitchToNext;
    YieldExample(ExampleRunning());
    LeadsStep(ExampleRunning(), Yield(false), [], ExampleDone());
    assert [Yield(false)] + [] == [Yield(false)];
  }
}
