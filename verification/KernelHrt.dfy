/** Hard real-time tasks: when their jobs start. */
module KernelHrt {
  import opened KernelTypes
  import opened KernelSpec
  import opened KernelInv
  import opened KernelSync
  import opened KernelRuns
  import opened KernelCalls
  import opened KernelTick
  import opened KernelSched
  import opened KernelFrame
  import opened KernelTiming

  // ---- HRT activations ------------------------------------------------------------------------

  /** An HRT task between two events: working, finished but still on the CPU, or off until its next
      period. */
  ghost predicate HrtTask(k: K, i: nat) {
    && i < |k.tasks|
    && var t := k.tasks[i];
       && Busy(t) && !t.removePending && !t.suspendPending && !t.wakePending && !Infinite(t) && t.hrt.period > 0
       && (Asleep(t) && t.sleepPending ==> t.hrt.done && t.hrt.duration < t.hrt.period && k.now == Some(i))
       && (Asleep(t) && !t.sleepPending ==> !t.hrt.done && t.hrt.duration == 0)
  }

  /** The tick at which the next job starts if nothing delays it. */
  function NextActivation(k: K, i: nat): int
    requires i < |k.tasks|
  {
    var t := k.tasks[i];
    if Asleep(t) && !t.sleepPending then k.ticks - t.sleep else k.ticks - t.hrt.duration + t.hrt.period
  }

  /** The events of the theorem: single ticks, forced switches, the task's own completion in fewer
      ticks than its period, and whatever is not about the task. */
  ghost predicate Disciplined(k: K, ev: Event, i: nat)
    requires i < |k.tasks|
  {
    if ev.TickBy? then ev.e == 1
    else ev.Force? || (ev.Yield? && (k.now == Some(i) ==> k.tasks[i].hrt.duration < k.tasks[i].hrt.period))
         || !Targets(k, ev, i)
  }

  /** The step starts a new job of slot `i`. */
  ghost predicate Activates(k: K, ev: Event, i: nat)
    requires Shaped(k) && Enabled(k, ev) && i < |k.tasks|
  {
    ev.TickBy? && Asleep(k.tasks[i]) && i < |Next(k, ev).tasks| && !Asleep(Next(k, ev).tasks[i])
  }

  /** The step takes the finished task off the CPU by its entry tick. */
  ghost predicate LateTakeOff(k: K, ev: Event, i: nat)
    requires i < |k.tasks|
  {
    ev.TickBy? && k.tasks[i].sleepPending
  }

  /** The scheduler step leaves every task alone but the one it takes off. */
  lemma FsmHrt(b: K, c: Choice, i: nat)
    requires Core(b) && NowMid(b) && b.mode.hrt && Fits(b, c) && LegalChoice(b.strat, c) && i < |b.tasks|
    requires forall j :: 0 <= j < |b.tasks| ==> Settled(b, j)
    requires Busy(b.tasks[i]) && !b.tasks[i].removePending
    ensures var t := UpdateFsmState(b, c).tasks[i];
            if b.now == Some(i) && Asleep(b.tasks[i]) && b.fsm != Sleeping && b.fsm != Exiting && b.fsm != FsmNone
               && (c.next.None? || b.tasks[i].hrt.done)
            then t == HrtOut(b.tasks[i]) else t == b.tasks[i]
  {
    hide WaitsInv, Distinct, Replay;
    assert SlotInv(b, i) && Settled(b, i);
  }

  lemma HrtSlot(m: Mode, t: Task)
    requires m.hrt && Busy(t) && !t.removePending && !t.suspendPending && !t.wakePending && !Infinite(t)
    ensures var u := SlotTask(m, t, true, 1);
            && u == t.(sleepPending := u.sleepPending, yieldPending := u.yieldPending, sleep := u.sleep, hrt := u.hrt)
            && (!Asleep(t) ==> u.sleepPending == t.sleepPending && u.sleep == t.sleep
                               && u.hrt == t.hrt.(duration := t.hrt.duration + 1))
            && (Asleep(t) ==> !u.sleepPending && u.hrt == t.hrt
                              && u.sleep == if t.sleepPending then t.sleep else t.sleep + 1)
  {
  }

  /** The task after a whole tick: a finished one is taken off and given the rest of its period. */
  function HrtAfterTick(m: Mode, t: Task): Task {
    if t.sleepPending then HrtOut(SlotTask(m, t, true, 1)) else SlotTask(m, t, true, 1)
  }

  lemma HrtTickTask(k: K, c: Choice, i: nat)
    requires Inv(k) && k.mode.hrt && HrtTask(k, i) && Enabled(k, TickBy(1, c))
    ensures Shaped(k) && Tick(k, 1, c).tasks[i] == HrtAfterTick(k.mode, k.tasks[i])
    ensures Tick(k, 1, c).ticks == k.ticks + 1
  {
    hide Core, TickBody, UpdateFsmState, SlotTask, HrtOut;
    HrtFacts(k, i);
    HrtBody(k, i);
    CoreShaped(k);
    TickBodyKeeps(k, 1);
    BodyFrame(k, 1);
    var b := TickBody(k, 1);
    HrtSlot(k.mode, k.tasks[i]);
    FsmKState(b, c);
    FsmHrt(b, c, i);
  }

  /** A tick moves the schedule by one period when it starts a job, by one tick when it takes the
      finished task off, and not at all otherwise. */
  lemma HrtTick(k: K, c: Choice, i: nat)
    requires Inv(k) && k.mode.hrt && HrtTask(k, i) && Enabled(k, TickBy(1, c))
    ensures var r, p := Tick(k, 1, c), k.tasks[i].hrt.period;
            && HrtTask(r, i) && r.tasks[i].hrt.period == p
            && NextActivation(r, i) == NextActivation(k, i)
                 + (if Asleep(k.tasks[i]) && !Asleep(r.tasks[i]) then p else 0)
                 + (if k.tasks[i].sleepPending then 1 else 0)
            && (Asleep(k.tasks[i]) && !Asleep(r.tasks[i]) ==>
                  r.ticks == NextActivation(k, i) && r.tasks[i].hrt.duration == 0)
  {
    hide Core, Tick, Enabled, SlotTask;
    HrtFacts(k, i);
    HrtTickTask(k, c, i);
    HrtSlot(k.mode, k.tasks[i]);
    var u := SlotTask(k.mode, k.tasks[i], true, 1);
    if k.tasks[i].sleepPending { assert Asleep(u) && u.hrt.period - u.hrt.duration > 0; }
  }

  lemma HrtFacts(k: K, i: nat)
    requires Inv(k) && k.mode.hrt && HrtTask(k, i)
    ensures var t := k.tasks[i];
            && !t.wakePending && !IsWaiting(t) && t.ts == Slice(0, 0)
            && 0 <= t.hrt.duration && t.hrt.period < WAIT_INFINITE
            && -WAIT_INFINITE <= t.sleep
            && k.kstate != Locked && (t.hrt.done ==> t.sleepPending) && (t.sleepPending ==> Asleep(t))
            && (k.now == Some(i) && Asleep(t) && !t.sleepPending ==> k.fsm == Sleeping)
            && (k.now == Some(i) && t.sleepPending ==> k.fsm == Switching || k.fsm == Waking)
  {
    hide WaitsInv, Distinct, Replay;
    assert SlotInv(k, i) && DoneInv(k, i);
  }

  lemma HrtBody(k: K, i: nat)
    requires Inv(k) && k.mode.hrt && HrtTask(k, i)
    ensures Shaped(k)
    ensures TickBody(k, 1).tasks[i] == SlotTask(k.mode, k.tasks[i], true, 1)
  {
    HrtFacts(k, i);
    ModeFacts(k);
    hide Core, TickBody, SlotTask;
    CoreShaped(k);
    TickTask(k, 1, i);
    NoSlice(k, i);
  }

  lemma NoSlice(k: K, i: nat)
    requires Core(k) && !k.mode.timeslice && i < |k.tasks| && k.tasks[i].ts == Slice(0, 0)
    requires TickBody(k, 1).tasks[i] ==
               SlotTask(k.mode, TickWait(k.tasks[i], 1), true, 1).(ts := TickBody(k, 1).tasks[i].ts)
    requires !IsWaiting(k.tasks[i]) && !k.tasks[i].removePending
    ensures TickBody(k, 1).tasks[i] == SlotTask(k.mode, k.tasks[i], true, 1)
  {
    hide Core, SlotTask, UpdateSyncObjects, SweepFrom;
    CoreShaped(k);
    var k0 := k.(ticks := k.ticks + 1);
    ClockKeeps(k, k0);
    SyncTick(k0, 1);
    var k1 := UpdateSyncObjects(k0, 1);
    SweepTask(Sweep(k1, if k1.mode.tickless then TICKLESS_TICKS_MAX else 1), 0, 1, i);
  }

  /** A forced switch that takes the finished task off does not move the schedule. */
  lemma HrtForce(k: K, id: nat, c: Choice, i: nat)
    requires Inv(k) && k.mode.hrt && HrtTask(k, i) && Enabled(k, Force(id, c))
    ensures var r := ForceSwitch(k, id, c);
            && HrtTask(r, i) && r.tasks[i].hrt.period == k.tasks[i].hrt.period
            && NextActivation(r, i) == NextActivation(k, i) && Asleep(r.tasks[i]) == Asleep(k.tasks[i])
  {
    HrtFacts(k, i);
    hide Core, UpdateFsmState;
    CoreShaped(k);
    ForceFrame(k, id, c);
    if k.now != Some(i) {
      ForceOthers(k, id, c, i);
      HrtElsewhere(k, i);
    } else if ForceBody(k, id).Some? {
      ForceBodyKeeps(k, id);
      FsmHrt(ForceBody(k, id).value, c, i);
    }
  }

  /** Only the current task can be finished and still on the CPU. */
  lemma HrtElsewhere(k: K, i: nat)
    requires Inv(k) && HrtTask(k, i) && k.now != Some(i)
    ensures !(Asleep(k.tasks[i]) && k.tasks[i].sleepPending)
  {
  }

  /** Completing a job does not move the schedule. */
  lemma HrtYield(k: K, handled: bool, i: nat)
    requires Inv(k) && k.mode.hrt && HrtTask(k, i) && Enabled(k, Yield(handled))
    requires k.now == Some(i) ==> k.tasks[i].hrt.duration < k.tasks[i].hrt.period
    ensures var r := SwitchToNext(k, handled);
            && HrtTask(r, i) && r.tasks[i].hrt.period == k.tasks[i].hrt.period
            && NextActivation(r, i) == NextActivation(k, i)
  {
    HrtFacts(k, i);
  }

  /** One step of the theorem. */
  lemma HrtStep(k: K, ev: Event, i: nat)
    requires Inv(k) && Enabled(k, ev) && k.mode.hrt && HrtTask(k, i) && Disciplined(k, ev, i)
    ensures var r, p := Next(k, ev), k.tasks[i].hrt.period;
            && HrtTask(r, i) && r.tasks[i].hrt.period == p
            && NextActivation(r, i) == NextActivation(k, i)
                 + (if Activates(k, ev, i) then p else 0) + (if LateTakeOff(k, ev, i) then 1 else 0)
            && (Activates(k, ev, i) ==> r.ticks == NextActivation(k, i) && r.tasks[i].hrt.duration == 0)
  {
    if ev.TickBy? {
      hide Core;
      CoreShaped(k);
      HrtTick(k, ev.c, i);
      NextTick(k, ev);
    } else if ev.Force? {
      hide Core;
      CoreShaped(k);
      HrtForce(k, ev.id, ev.c, i);
    } else if ev.Yield? {
      hide Core;
      HrtYield(k, ev.handled, i);
    } else {
      hide Core, Next;
      CoreShaped(k);
      OthersUntouched(k, ev, i);
      ClockSteps(k, ev);
      HrtElsewhereNow(k, ev, i);
    }
  }

  lemma HrtElsewhereNow(k: K, ev: Event, i: nat)
    requires Inv(k) && Enabled(k, ev) && k.mode.hrt && HrtTask(k, i) && !Targets(k, ev, i) && !ev.Force?
    ensures Asleep(k.tasks[i]) && k.tasks[i].sleepPending ==> Next(k, ev).now == Some(i)
  {
    hide Core;
    CoreShaped(k);
    if k.now == Some(i) && !ev.Start? { hide Next; CallsKeepNow(k, ev); }
  }

  /** A run in which every event is disciplined for slot `i`. */
  ghost predicate HrtRun(k: K, evs: seq<Event>, i: nat, r: K)
    requires i < |k.tasks|
    decreases |evs|
  {
    if evs == [] then r == k else
    && Shaped(k) && Enabled(k, evs[0]) && Disciplined(k, evs[0], i) && i < |Next(k, evs[0]).tasks|
    && HrtRun(Next(k, evs[0]), evs[1..], i, r)
  }

  /** Number of jobs started, and of finished jobs taken off by their entry tick, in a run. */
  ghost function Jobs(k: K, evs: seq<Event>, i: nat): nat
    requires i < |k.tasks|
    decreases |evs|
  {
    if evs == [] || !(Shaped(k) && Enabled(k, evs[0]) && i < |Next(k, evs[0]).tasks|) then 0
    else (if Activates(k, evs[0], i) then 1 else 0) + Jobs(Next(k, evs[0]), evs[1..], i)
  }

  ghost function LateTakeOffs(k: K, evs: seq<Event>, i: nat): nat
    requires i < |k.tasks|
    decreases |evs|
  {
    if evs == [] || !(Shaped(k) && Enabled(k, evs[0]) && i < |Next(k, evs[0]).tasks|) then 0
    else (if LateTakeOff(k, evs[0], i) then 1 else 0) + LateTakeOffs(Next(k, evs[0]), evs[1..], i)
  }

  /** Activations do not drift: after any disciplined run that started `n` jobs, the next one is due
      exactly `n` periods after the first, plus one tick for each take-off by an entry tick. */
  lemma {:induction false} HrtNoDrift(k: K, evs: seq<Event>, i: nat, r: K)
    requires Inv(k) && k.mode.hrt && HrtTask(k, i) && HrtRun(k, evs, i, r)
    ensures HrtTask(r, i) && r.tasks[i].hrt.period == k.tasks[i].hrt.period && Inv(r)
    ensures NextActivation(r, i) ==
            NextActivation(k, i) + Jobs(k, evs, i) * k.tasks[i].hrt.period + LateTakeOffs(k, evs, i)
    decreases |evs|
  {
    hide Core, Next, Enabled, Activates, LateTakeOff, NextActivation, Disciplined;
    if evs != [] {
      CoreShaped(k);
      HrtStep(k, evs[0], i);
      NextKeeps(k, evs[0]);
      ClockSteps(k, evs[0]);
      var k1 := Next(k, evs[0]);
      HrtNoDrift(k1, evs[1..], i, r);
      var p, n := k.tasks[i].hrt.period, Jobs(k1, evs[1..], i);
      assert (1 + n) * p == p + n * p;
    }
  }

  /** The job that the next event starts begins at start delay plus `n` periods after the start when `n`
      jobs were started before, plus one tick for each finished job that its entry tick took off. */
  lemma HrtActivationTime(k: K, delay: nat, evs: seq<Event>, i: nat, r: K, ev: Event)
    requires Inv(k) && k.mode.hrt && HrtTask(k, i) && Asleep(k.tasks[i]) && !k.tasks[i].sleepPending
    requires -k.tasks[i].sleep == delay && HrtRun(k, evs, i, r)
    requires Shaped(r) && Enabled(r, ev) && i < |r.tasks| && Disciplined(r, ev, i) && Activates(r, ev, i)
    ensures Next(r, ev).ticks == k.ticks + delay + Jobs(k, evs, i) * k.tasks[i].hrt.period + LateTakeOffs(k, evs, i)
  {
    hide Core, Next, Enabled, Activates, LateTakeOff, Jobs, LateTakeOffs, HrtRun, Disciplined;
    HrtNoDrift(k, evs, i, r);
    ClockKeepsMode(k, evs, i, r);
    HrtStep(r, ev, i);
  }

  lemma {:induction false} ClockKeepsMode(k: K, evs: seq<Event>, i: nat, r: K)
    requires Inv(k) && i < |k.tasks| && HrtRun(k, evs, i, r)
    ensures r.mode == k.mode
    decreases |evs|
  {
    hide Core, Next, Enabled, Disciplined;
    if evs != [] {
      CoreShaped(k);
      NextKeeps(k, evs[0]);
      ClockSteps(k, evs[0]);
      ClockKeepsMode(Next(k, evs[0]), evs[1..], i, r);
    }
  }

  /** At the start an HRT task is off for its start delay, or awake with a fresh job. */
  lemma HrtAtStart(k: K, c: Choice, i: nat)
    requires Inv(k) && Enabled(k, Start(c)) && k.mode.hrt && i < |k.tasks| && Busy(k.tasks[i])
    requires var t := k.tasks[i];
             && !t.suspended && !t.suspendPending && !t.removePending && !t.wakePending && !Infinite(t)
             && t.hrt.period > 0 && t.hrt.duration == 0 && (Asleep(t) ==> t.sleepPending)
    ensures var r := OnStart(k, c);
            && HrtTask(r, i) && !r.tasks[i].sleepPending && r.tasks[i].sleep == k.tasks[i].sleep
            && NextActivation(r, i) == k.ticks + if Asleep(k.tasks[i]) then -k.tasks[i].sleep else k.tasks[i].hrt.period
  {
    assert SlotInv(k, i) && DoneInv(k, i);
    StartFromKeeps(k, 0);
    hide WaitsInv, Distinct, Replay, StartFrom;
  }
}
