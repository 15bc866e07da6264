/** Deadlines of hard real-time tasks: which ticks of a run report a miss. */
module KernelMisses {
  import opened KernelTypes
  import opened KernelSpec
  import opened KernelInv
  import opened KernelSync
  import opened KernelRuns
  import opened KernelCalls
  import opened KernelTheorems
  import opened KernelTick
  import opened KernelSched
  import opened KernelFrame
  import opened KernelTiming
  import opened KernelHrt
  import opened KernelSlices

  // ---- jobs -----------------------------------------------------------------------------------

  /** What AddTask was told about the task of a slot, and the ticks for which its current job was awake. */
  datatype Job = Job(period: int, deadline: int, used: int)

  const NO_JOB := Job(0, 0, 0)

  /** The step takes the task of slot `i` off the CPU for good: its job is complete, or the kernel goes to sleep. */
  ghost predicate Retires(k: K, ev: Event, i: nat)
    requires i < |k.tasks|
  {
    && k.mode.hrt && k.now == Some(i) && k.fsm != Sleeping && Asleep(k.tasks[i])
    && (ev.TickBy? || (ev.Force? && Acts(k, ev.id)))
    && if ev.c.next.None? then !k.tasks[i].removePending else k.tasks[i].hrt.done
  }

  /** The job of slot `i` after one more event: an add starts it with what the caller said, each tick that
      finds the task awake adds its length, and the take-off at its end starts the next one. */
  ghost function Track(k: K, ev: Event, i: nat, job: Job): Job
    requires Shaped(k) && Enabled(k, ev) && i < |k.tasks|
  {
    if i >= |Next(k, ev).tasks| || !Busy(Next(k, ev).tasks[i]) then NO_JOB
    else if !Busy(k.tasks[i]) then
      if ev.Add? && ev.hrt.Some? then Job(ev.hrt.value.0, ev.hrt.value.1, 0) else NO_JOB
    else if Retires(k, ev, i) then job.(used := 0)
    else if ev.TickBy? && k.mode.hrt && !Asleep(k.tasks[i]) then job.(used := job.used + ev.e)
    else job
  }

  /** The tick finds the task awake and brings its job beyond the deadline. */
  predicate Overruns(k: K, ev: Event, i: nat, job: Job)
    requires i < |k.tasks|
  {
    ev.TickBy? && k.mode.hrt && Busy(k.tasks[i]) && !Asleep(k.tasks[i]) && job.used + ev.e > job.deadline
  }

  /** The job at the end of a run, and the number of ticks of the run that overran a deadline. */
  ghost function JobIn(k: K, evs: seq<Event>, i: nat, job: Job): Job
    decreases |evs|
  {
    if evs == [] || !(Shaped(k) && Enabled(k, evs[0]) && i < |k.tasks|) then job
    else JobIn(Next(k, evs[0]), evs[1..], i, Track(k, evs[0], i, job))
  }

  ghost function OverrunsIn(k: K, evs: seq<Event>, i: nat, job: Job): nat
    decreases |evs|
  {
    if evs == [] || !(Shaped(k) && Enabled(k, evs[0]) && i < |k.tasks|) then 0
    else (if Overruns(k, evs[0], i, job) then 1 else 0)
         + OverrunsIn(Next(k, evs[0]), evs[1..], i, Track(k, evs[0], i, job))
  }

  /** The slot holds this job. */
  predicate Holds(k: K, i: nat, job: Job) {
    i < |k.tasks| && var h := k.tasks[i].hrt; Job(h.period, h.deadline, h.duration) == job
  }

  /** The number of misses of slot `i` that the strategy was told. */
  function Misses(log: seq<Note>, i: nat): nat {
    if log == [] then 0
    else Misses(log[..|log| - 1], i) + if log[|log| - 1] == Missed(i) then 1 else 0
  }

  // ---- events that report no miss -------------------------------------------------------------

  /** `b` continues `a` without a miss. */
  ghost predicate Unmissed(a: seq<Note>, b: seq<Note>) {
    |a| <= |b| && b[..|a|] == a && forall j :: |a| <= j < |b| ==> !b[j].Missed?
  }

  lemma {:induction false} UnmissedCount(a: seq<Note>, b: seq<Note>, i: nat)
    requires Unmissed(a, b)
    ensures Misses(b, i) == Misses(a, i)
    decreases |b|
  {
    if |a| == |b| {
      assert b == a;
    } else {
      var c := b[..|b| - 1];
      assert c[..|a|] == a;
      UnmissedCount(a, c, i);
    }
  }

  lemma MissesSnoc(log: seq<Note>, n: Note, i: nat)
    ensures Misses(log + [n], i) == Misses(log, i) + if n == Missed(i) then 1 else 0
  {
    assert (log + [n])[..|log|] == log;
  }

  lemma {:induction false} WakeUnmissed(k: K, ws: seq<nat>)
    requires Shaped(k) && InRange(ws, |k.tasks|)
    ensures Unmissed(k.log, WakeEach(k, ws).log)
    decreases |ws|
  {
    if ws != [] {
      assert ws[0] in ws && forall x :: x in ws[1..] ==> x in ws;
      var k1 := EndWaitAndWake(k, ws[0], Signaled);
      EndUnmissed(k, ws[0], Signaled);
      WakeUnmissed(k1, ws[1..]);
      hide EndWaitAndWake;
      UnmissedTrans(k.log, k1.log, WakeEach(k, ws).log);
    }
  }

  lemma EndUnmissed(k: K, i: nat, how: WaitState)
    requires i < |k.tasks|
    ensures Unmissed(k.log, EndWaitAndWake(k, i, how).log)
  {
    hide Post, WaitList, Without;
  }

  lemma UnmissedTrans(a: seq<Note>, b: seq<Note>, c: seq<Note>)
    requires Unmissed(a, b) && Unmissed(b, c)
    ensures Unmissed(a, c)
  {
    assert c[..|a|] == c[..|b|][..|a|];
    forall j | |a| <= j < |c| ensures !c[j].Missed? { if j < |b| { assert c[j] == c[..|b|][j] == b[j]; } }
  }

  lemma {:induction false} StartUnmissed(k: K, i: nat)
    requires i <= |k.tasks|
    ensures Unmissed(k.log, StartFrom(k, i).log)
    decreases |k.tasks| - i
  {
    hide Post, EffWeight;
    if i < |k.tasks| {
      var t := k.tasks[i];
      if t.sleepPending {
        var k1 := Tell(SetTask(k, i, t.(sleepPending := false)), Slept(i, EffWeight(t)));
        StartUnmissed(k1, i + 1);
        UnmissedTrans(k.log, k1.log, StartFrom(k1, i + 1).log);
      } else {
        StartUnmissed(k, i + 1);
      }
    }
  }

  /** Only ticks report misses. */
  lemma CallUnmissed(k: K, ev: Event)
    requires Inv(k) && Enabled(k, ev) && !ev.TickBy?
    ensures Shaped(k) && Unmissed(k.log, Next(k, ev).log)
  {
    hide Core;
    CoreShaped(k);
    if ev.Force? {
      ForceUnmissed(k, ev.id, ev.c);
    } else if ev.Start? {
      StartUnmissed(k, 0);
      hide StartFrom;
    } else if ev.Wake? {
      SignalUnmissed(k, ev.s, ev.everyone);
    } else if ev.Expel? || ev.Cancel? || ev.Remove? || ev.Exit? || ev.Block? {
      hide Next;
      EndsUnmissed(k, ev);
    } else if NamesTask(ev) {
      hide Next;
      NamedUnmissed(k, ev);
    } else {
      hide Post, EffWeight, ScheduleSleep, TryAllocate, WorkDone, HrtInit, Bind, ExitTask, WaitOn, OnStart, Signal;
    }
  }

  lemma NamedUnmissed(k: K, ev: Event)
    requires Shaped(k) && Enabled(k, ev) && NamesTask(ev) && !ev.Expel? && !ev.Cancel? && !ev.Remove?
    ensures Unmissed(k.log, Next(k, ev).log)
  {
    hide Post, EffWeight, ScheduleSleep, WakeTask, MaxWeight, BaseWeight, FindFrom, ScheduleTaskRemoval, CancelTaskWait,
      RemoveTask;
  }

  lemma EndsUnmissed(k: K, ev: Event)
    requires Shaped(k) && Enabled(k, ev) && (ev.Expel? || ev.Cancel? || ev.Remove? || ev.Exit? || ev.Block?)
    ensures Unmissed(k.log, Next(k, ev).log)
  {
    hide FindFrom, ScheduleRemoval, EndWaitAndWake, Post, EffWeight, WaitList, ScheduleSleep;
    forall x: nat | x < |k.tasks| ensures Unmissed(k.log, ScheduleRemoval(k, x).log) { RemovalUnmissed(k, x); }
    forall x: nat | x < |k.tasks| ensures Unmissed(k.log, EndWaitAndWake(k, x, Cancelled).log) {
      EndUnmissed(k, x, Cancelled);
    }
  }

  lemma RemovalUnmissed(k: K, x: nat)
    requires x < |k.tasks|
    ensures Unmissed(k.log, ScheduleRemoval(k, x).log)
  {
    hide Post, EffWeight, ScheduleSleep, WorkDone, WaitList, Without;
  }

  lemma SignalUnmissed(k: K, s: nat, everyone: bool)
    requires Shaped(k)
    ensures Unmissed(k.log, Signal(k, s, everyone).log)
  {
    var ws := WaitList(k, s);
    WakeUnmissed(k, ws);
    if ws != [] { assert ws[0] in ws; EndUnmissed(k, ws[0], Signaled); }
    hide WakeEach, EndWaitAndWake;
  }

  lemma ForceUnmissed(k: K, id: nat, c: Choice)
    requires Shaped(k) && Fits(k, c)
    ensures Unmissed(k.log, ForceSwitch(k, id, c).log)
  {
    hide Post, EffWeight, UpdateFsmState;
    if ForceBody(k, id).Some? { FsmTakesOff(ForceBody(k, id).value, c, k.now.value); }
  }

  // ---- the tick -------------------------------------------------------------------------------

  lemma {:induction false} WaitersUnmissed(k: K, ws: seq<nat>, e: int)
    requires InRange(ws, |k.tasks|)
    ensures Unmissed(k.log, TickWaiters(k, ws, e).log)
    decreases |ws|
  {
    if ws != [] {
      assert ws[0] in ws && forall x :: x in ws[1..] ==> x in ws;
      EndUnmissed(k, ws[0], TimedOut);
      hide EndWaitAndWake;
      var k1 := TickWaiter(k, ws[0], e);
      assert Unmissed(k.log, k1.log);
      hide TickWaiter;
      WaitersUnmissed(k1, ws[1..], e);
      UnmissedTrans(k.log, k1.log, TickWaiters(k1, ws[1..], e).log);
    }
  }

  lemma {:induction false} SyncsUnmissed(k: K, ss: seq<nat>, e: int)
    requires Shaped(k)
    ensures Unmissed(k.log, TickSyncs(k, ss, e).log)
    decreases |ss|
  {
    if ss != [] {
      hide TickWaiters;
      WaitersUnmissed(k, WaitList(k, ss[0]), e);
      var k1 := TickSync(k, ss[0], e);
      assert Unmissed(k.log, k1.log);
      hide TickSync;
      SyncsUnmissed(k1, ss[1..], e);
      UnmissedTrans(k.log, k1.log, TickSyncs(k1, ss[1..], e).log);
    }
  }

  /** The task in a slot that the tick visits is charged beyond its deadline. */
  predicate Overdue(m: Mode, t: Task, e: int) {
    m.hrt && Busy(t) && !Asleep(t) && t.hrt.duration + e > t.hrt.deadline
  }

  lemma SlotMisses(k: K, i: nat, e: int, j: nat)
    requires i < |k.tasks| && j < |k.tasks|
    ensures Misses(TickSlot(k, i, e).log, j) ==
      Misses(k.log, j) + if i == j && Overdue(k.mode, k.tasks[i], e) then 1 else 0
  {
    TickSlotLog(k, i, e);
    hide TickSlot;
    var notes := SlotNotes(k.mode, i, k.tasks[i], Removable(k, i), e);
    if Overdue(k.mode, k.tasks[i], e) {
      MissesSnoc(k.log, Missed(i), j);
    } else {
      hide EffWeight;
      UnmissedCount(k.log, k.log + notes, j);
    }
  }

  lemma {:induction false} SweepMisses(s: Sweep, i: nat, e: int, j: nat)
    requires i <= |s.k.tasks| && j < |s.k.tasks|
    ensures Misses(SweepFrom(s, i, e).k.log, j) ==
      Misses(s.k.log, j) + if i <= j && Overdue(s.k.mode, s.k.tasks[j], e) then 1 else 0
    decreases |s.k.tasks| - i
  {
    if i < |s.k.tasks| {
      SlotMisses(s.k, i, e, j);
      TickSlotIs(s.k, i, e);
      hide TickSlot, GetSleepTicks, SlotTask, Misses, Overdue, Removable;
      var s1 := SweepSlot(s, i, e);
      assert i != j ==> s1.k.tasks[j] == s.k.tasks[j];
      SweepMisses(s1, i + 1, e, j);
    }
  }

  lemma HrtNoWaiter(k: K, j: nat)
    requires Core(k) && j < |k.tasks| && k.mode.hrt
    ensures !IsWaiting(k.tasks[j])
  {
    assert SlotInv(k, j);
  }

  lemma SyncUnmissed(k: K, e: int)
    requires Shaped(k)
    ensures Unmissed(k.log, UpdateSyncObjects(k.(ticks := k.ticks + e), e).log)
  {
    hide TickSyncs;
    SyncsUnmissed(k.(ticks := k.ticks + e), k.syncs, e);
  }

  lemma SliceUnmissed(k: K, e: int)
    ensures Unmissed(k.log, UpdateTimeslice(k, e).log)
  {
    hide Post, Reload;
  }

  /** A tick reports a miss of slot `j` exactly when it finds the task awake and charges it beyond its deadline. */
  lemma TickMisses(k: K, e: int, c: Choice, j: nat)
    requires Inv(k) && e >= 0 && Fits(k, c) && j < |k.tasks|
    ensures Shaped(k)
    ensures Misses(Tick(k, e, c).log, j) == Misses(k.log, j) + if Overdue(k.mode, k.tasks[j], e) then 1 else 0
  {
    hide Core, UpdateSyncObjects, SweepFrom, UpdateTimeslice, UpdateFsmState, TickWait, Unmissed, Misses;
    CoreShaped(k);
    var k0 := k.(ticks := k.ticks + e);
    ClockKeeps(k, k0);
    SyncTick(k0, e);
    SyncUnmissed(k, e);
    var k1 := UpdateSyncObjects(k0, e);
    UnmissedCount(k.log, k1.log, j);
    if k.mode.hrt { HrtNoWaiter(k, j); WaitKeepsFlags(k.tasks[j], e); }
    SweepMisses(Sweep(k1, if k1.mode.tickless then TICKLESS_TICKS_MAX else 1), 0, e, j);
    var k2, b := UpdateTaskState(k1, e).k, TickBody(k, e);
    SliceUnmissed(k2, e);
    UnmissedCount(k2.log, b.log, j);
    FsmLog(b, c);
  }

  lemma FsmLog(b: K, c: Choice)
    requires Shaped(b) && Fits(b, c)
    ensures UpdateFsmState(b, c).log == b.log
  {
    if b.now.Some? { FsmTakesOff(b, c, b.now.value); }
  }

  // ---- the job of a slot ----------------------------------------------------------------------

  lemma SlotJob(m: Mode, t: Task, removable: bool, e: int)
    ensures var u := SlotTask(m, t, removable, e);
      Busy(u) ==>
        && u.hrt == t.hrt.(duration := t.hrt.duration + if m.hrt && Busy(t) && !Asleep(t) then e else 0)
        && u.removePending == t.removePending && (!Asleep(t) ==> !Asleep(u))
  {
  }

  /** What the visit of the slots makes of the job in slot `j`. */
  lemma {:induction false} SweepJob(s: Sweep, i: nat, e: int, j: nat)
    requires i <= |s.k.tasks| && j < |s.k.tasks|
    ensures var t, u := s.k.tasks[j], SweepFrom(s, i, e).k.tasks[j];
      Busy(u) ==>
        && u.hrt == t.hrt.(duration :=
             t.hrt.duration + if i <= j && s.k.mode.hrt && Busy(t) && !Asleep(t) then e else 0)
        && u.removePending == t.removePending && (!Asleep(t) ==> !Asleep(u))
    decreases |s.k.tasks| - i
  {
    if i < |s.k.tasks| {
      TickSlotIs(s.k, i, e);
      SlotJob(s.k.mode, s.k.tasks[i], Removable(s.k, i), e);
      hide TickSlot, GetSleepTicks, SlotTask, Removable;
      var s1 := SweepSlot(s, i, e);
      if i == j { SweptStays(s1, i + 1, e, j); } else { SweepJob(s1, i + 1, e, j); }
    }
  }

  lemma WaitKeepsJob(t: Task, e: int)
    ensures var u := TickWait(t, e); u.hrt == t.hrt && u.removePending == t.removePending && u.user == t.user
  {
  }

  lemma BodyJob(k: K, e: int, j: nat)
    requires Inv(k) && e >= 0 && j < |k.tasks|
    ensures Shaped(k)
    ensures var t, u := k.tasks[j], TickBody(k, e).tasks[j];
      Busy(u) ==>
        && u.hrt == t.hrt.(duration := t.hrt.duration + if k.mode.hrt && Busy(t) && !Asleep(t) then e else 0)
        && u.removePending == t.removePending && (k.mode.hrt && !Asleep(t) ==> !Asleep(u))
  {
    hide Core, UpdateSyncObjects, SweepFrom, UpdateTimeslice, TickWait;
    CoreShaped(k);
    var k0 := k.(ticks := k.ticks + e);
    ClockKeeps(k, k0);
    SyncTick(k0, e);
    var k1 := UpdateSyncObjects(k0, e);
    WaitKeepsJob(k.tasks[j], e);
    if k.mode.hrt { HrtNoWaiter(k, j); WaitKeepsFlags(k.tasks[j], e); }
    SweepJob(Sweep(k1, if k1.mode.tickless then TICKLESS_TICKS_MAX else 1), 0, e, j);
    SliceFrame(UpdateTaskState(k1, e).k, e, j);
  }

  /** The scheduler step ends the job of the task that it takes off, and no other. */
  lemma FsmJob(b: K, c: Choice, i: nat)
    requires Core(b) && NowMid(b) && Fits(b, c) && LegalChoice(b.strat, c) && i < |b.tasks| && Busy(b.tasks[i])
    requires forall j :: 0 <= j < |b.tasks| ==> Settled(b, j)
    ensures var t, u := b.tasks[i], UpdateFsmState(b, c).tasks[i];
      var ends := b.mode.hrt && b.now == Some(i) && b.fsm != Sleeping && Asleep(t)
                  && if c.next.None? then !t.removePending else t.hrt.done;
      && Busy(u) && u.hrt.period == t.hrt.period && u.hrt.deadline == t.hrt.deadline
      && u.hrt.duration == if ends then 0 else t.hrt.duration
    ensures (b.now == Some(i) && c.next.None?) || (b.mode.hrt && b.tasks[i].hrt.done) ==> Asleep(b.tasks[i])
  {
    ChosenFacts(b, c, i);
    hide Core, NowMid, LegalChoice, Settled, UpdateFsmState;
    if b.now == Some(i) { FsmOwn(b, c, i); } else { FsmElsewhere(b, c, i); }
  }

  lemma FsmOwn(b: K, c: Choice, i: nat)
    requires Shaped(b) && Fits(b, c) && b.now == Some(i) && |b.strat.all| != 0
    requires b.fsm == Switching || b.fsm == Waking || b.fsm == Sleeping
    requires (c.next == Some(i) ==> !Asleep(b.tasks[i])) && (c.next.None? ==> Asleep(b.tasks[i]))
    requires b.mode.hrt && b.tasks[i].hrt.done ==> Asleep(b.tasks[i])
    ensures var t := b.tasks[i];
      var ends := b.mode.hrt && b.fsm != Sleeping && Asleep(t)
                  && if c.next.None? then !t.removePending else t.hrt.done;
      UpdateFsmState(b, c).tasks[i] == if ends then HrtOut(t) else t
  {
    hide HrtOut;
  }

  /** What the answer of the strategy says about slot `i`. */
  lemma ChosenFacts(b: K, c: Choice, i: nat)
    requires Core(b) && LegalChoice(b.strat, c) && i < |b.tasks| && Busy(b.tasks[i]) && Settled(b, i)
    ensures Shaped(b) && |b.strat.all| != 0
    ensures b.now.Some? ==> b.fsm == Switching || b.fsm == Waking || b.fsm == Sleeping
    ensures (c.next == Some(i) ==> !Asleep(b.tasks[i])) && (c.next.None? ==> Asleep(b.tasks[i]))
    ensures b.mode.hrt && b.tasks[i].hrt.done ==> Asleep(b.tasks[i])
  {
    hide WaitsInv, Distinct, Replay;
    assert SlotInv(b, i);
    assert i in b.strat.all;
  }

  lemma FsmUser(b: K, c: Choice, i: nat)
    requires Shaped(b) && Fits(b, c) && i < |b.tasks|
    ensures UpdateFsmState(b, c).tasks[i].user == b.tasks[i].user
  {
  }

  lemma TickTracks(k: K, e: int, c: Choice, i: nat, job: Job)
    requires Inv(k) && Enabled(k, TickBy(e, c)) && Holds(k, i, job) && Busy(k.tasks[i])
    requires Shaped(k) && Busy(Tick(k, e, c).tasks[i])
    ensures Holds(Tick(k, e, c), i, Track(k, TickBy(e, c), i, job))
  {
    hide Core, TickBody, UpdateFsmState, Settled, BounceFree;
    ModeFacts(k);
    TickBodyKeeps(k, e);
    BodyFrame(k, e);
    BodyJob(k, e, i);
    var b := TickBody(k, e);
    FsmUser(b, c, i);
    if b.kstate != Locked { FsmJob(b, c, i); }
  }

  lemma ForceTracks(k: K, id: nat, c: Choice, i: nat, job: Job)
    requires Inv(k) && Enabled(k, Force(id, c)) && Holds(k, i, job) && Busy(k.tasks[i])
    ensures Shaped(k) && Holds(ForceSwitch(k, id, c), i, Track(k, Force(id, c), i, job))
  {
    hide Core, UpdateFsmState, Settled, Acts, Post, EffWeight;
    CoreShaped(k);
    ActsExactly(k, id, c);
    if Acts(k, id) {
      ForceBodyKeeps(k, id);
      FsmJob(ForceBody(k, id).value, c, i);
    }
  }

  /** A call about the task does not touch its job. */
  lemma TargetTracks(k: K, ev: Event, i: nat, job: Job)
    requires Inv(k) && Enabled(k, ev) && Holds(k, i, job) && Busy(k.tasks[i])
    requires Targets(k, ev, i) && !ev.TickBy? && !ev.Force? && !ev.Start? && !ev.Wake?
    requires i < |Next(k, ev).tasks| && Busy(Next(k, ev).tasks[i])
    ensures Holds(Next(k, ev), i, job)
  {
    hide Core;
    CoreShaped(k);
    if ev.Expel? || ev.Cancel? || ev.Remove? || ev.Exit? || ev.Block? {
      EndsTracks(k, ev, i, job);
    } else if NamesTask(ev) {
      hide Next;
      NamedTracks(k, ev, i, job);
    } else {
      hide Post, EffWeight, ExitTask, WaitOn;
    }
  }

  lemma NamedTracks(k: K, ev: Event, i: nat, job: Job)
    requires Shaped(k) && Enabled(k, ev) && Holds(k, i, job)
    requires NamesTask(ev) && !ev.Expel? && !ev.Cancel? && !ev.Remove?
    ensures Holds(Next(k, ev), i, job)
  {
    hide Post, EffWeight, MaxWeight, BaseWeight, FindFrom, ScheduleTaskRemoval, CancelTaskWait, RemoveTask;
  }

  lemma EndsTracks(k: K, ev: Event, i: nat, job: Job)
    requires Shaped(k) && Enabled(k, ev) && Holds(k, i, job)
    requires ev.Expel? || ev.Cancel? || ev.Remove? || ev.Exit? || ev.Block?
    requires i < |Next(k, ev).tasks| && Busy(Next(k, ev).tasks[i])
    ensures Holds(Next(k, ev), i, job)
  {
    if ev.Expel? || ev.Exit? {
      hide FindFrom, ScheduleRemoval;
      forall x: nat | x < |k.tasks| ensures Holds(ScheduleRemoval(k, x), i, job) { RemovalTracks(k, x, i, job); }
    } else if ev.Cancel? {
      hide Next, FindFrom, CancelTaskWait;
      CancelTracks(k, ev.id, i, job);
      NextCancel(k, ev);
    } else {
      hide Post, EffWeight, WaitList, FindFrom, ScheduleTaskRemoval, CancelTaskWait, ExitTask;
    }
  }

  lemma NextCancel(k: K, ev: Event)
    requires Shaped(k) && Enabled(k, ev) && ev.Cancel?
    ensures Next(k, ev) == CancelTaskWait(k, ev.id)
  {
    hide CancelTaskWait;
  }

  lemma RemovalTracks(k: K, x: nat, i: nat, job: Job)
    requires x < |k.tasks| && Holds(k, i, job)
    ensures Holds(ScheduleRemoval(k, x), i, job)
  {
    hide Post, EffWeight, WaitList, Without;
  }

  lemma CancelTracks(k: K, id: nat, i: nat, job: Job)
    requires Holds(k, i, job)
    ensures Holds(CancelTaskWait(k, id), i, job)
  {
    hide Post, EffWeight, WaitList, Without, FindFrom;
  }

  /** A slot becomes busy only by an add, and then with the job that the caller described. */
  lemma FreeTracks(k: K, ev: Event, i: nat, job: Job)
    requires Inv(k) && Enabled(k, ev) && i < |k.tasks| && !Busy(k.tasks[i])
    requires i < |Next(k, ev).tasks| && Busy(Next(k, ev).tasks[i])
    ensures Shaped(k) && Holds(Next(k, ev), i, Track(k, ev, i, job))
  {
    hide Core, Enabled;
    CoreShaped(k);
    if ev.Add? {
      AddOutcome(k, ev.u, ev.hrt);
      hide AddTask;
    } else {
      hide Next;
      StaysFree(k, ev, i);
    }
  }

  /** Every event keeps the account of every job. */
  lemma EventTracks(k: K, ev: Event, i: nat, job: Job)
    requires Inv(k) && Enabled(k, ev) && Holds(k, i, job)
    ensures Shaped(k) && Holds(Next(k, ev), i, Track(k, ev, i, job))
  {
    hide Core, Next, Enabled;
    CoreShaped(k);
    StillThere(k, ev, i);
    if !Busy(Next(k, ev).tasks[i]) {
      NextKeeps(k, ev);
      FreeSlot(Next(k, ev), i);
    } else if !Busy(k.tasks[i]) {
      FreeTracks(k, ev, i, job);
    } else if ev.TickBy? {
      NextTick(k, ev);
      TickTracks(k, ev.e, ev.c, i, job);
    } else if ev.Force? {
      NextForce(k, ev);
      ForceTracks(k, ev.id, ev.c, i, job);
    } else if !Targets(k, ev, i) {
      OthersUntouched(k, ev, i);
    } else if ev.Start? || ev.Wake? {
      SwitchTracks(k, ev, i);
    } else {
      TargetTracks(k, ev, i, job);
    }
  }

  lemma NextForce(k: K, ev: Event)
    requires Shaped(k) && Enabled(k, ev) && ev.Force?
    ensures Fits(k, ev.c) && Next(k, ev) == ForceSwitch(k, ev.id, ev.c)
  {
  }

  lemma SwitchTracks(k: K, ev: Event, i: nat)
    requires Inv(k) && Enabled(k, ev) && i < |k.tasks| && (ev.Start? || ev.Wake?)
    ensures i < |Next(k, ev).tasks| && Next(k, ev).tasks[i].hrt == k.tasks[i].hrt
  {
    if ev.Start? { StartFree(k, ev.c, i); } else { WakeEither(k, ev.s, ev.everyone, i); }
  }

  // ---- the end of a job -----------------------------------------------------------------------

  /** The sleep that a finished job is given: the rest of its period, or what the task asked for when the job
      took the whole period or more. */
  function RestOf(t: Task): int {
    if t.hrt.period > t.hrt.duration then t.hrt.period - t.hrt.duration else -t.sleep
  }

  /** The step that takes a task off at the end of its job gives it that sleep and starts the next job afresh,
      also when the job overran its period. */
  lemma RetiredRests(k: K, ev: Event, i: nat)
    requires Inv(k) && Enabled(k, ev) && i < |k.tasks| && Retires(k, ev, i)
    requires !k.tasks[i].wakePending && !k.tasks[i].removePending
    ensures i < |Next(k, ev).tasks| && var t := Next(k, ev).tasks[i];
      Busy(t) && t.sleep == -RestOf(k.tasks[i]) && !t.sleepPending && t.hrt.duration == 0 && !t.hrt.done
  {
    hide Core, TickBody, UpdateFsmState, ForceBody, Settled, BounceFree;
    ModeFacts(k);
    RetiringFacts(k, i);
    if ev.TickBy? {
      TickBodyKeeps(k, ev.e);
      BodyFrame(k, ev.e);
      RetiringSlot(k, ev.e, i);
      FsmHrt(TickBody(k, ev.e), ev.c, i);
    } else {
      ActsExactly(k, ev.id, ev.c);
      ForceBodyKeeps(k, ev.id);
      ForceBodyIs(k, ev.id);
      FsmHrt(ForceBody(k, ev.id).value, ev.c, i);
    }
  }

  lemma RetiringFacts(k: K, i: nat)
    requires Inv(k) && k.mode.hrt && k.now == Some(i) && k.fsm != Sleeping && Asleep(k.tasks[i])
    ensures k.kstate != Locked && (k.fsm == Switching || k.fsm == Waking)
    ensures var t := k.tasks[i]; Busy(t) && t.sleepPending && !IsWaiting(t)
  {
    assert SlotInv(k, i);
  }

  lemma RetiringSlot(k: K, e: int, i: nat)
    requires Core(k) && e >= 0 && i < |k.tasks|
    requires var t := k.tasks[i];
      Busy(t) && Asleep(t) && t.sleepPending && !t.wakePending && !t.removePending && !IsWaiting(t)
    ensures Shaped(k) && var t, u := k.tasks[i], TickBody(k, e).tasks[i];
      u.hrt == t.hrt && u.sleep == t.sleep && u.user == t.user && !u.removePending && !u.sleepPending
  {
    hide Core, TickBody;
    CoreShaped(k);
    TickTask(k, e, i);
  }

  // ---- every run ------------------------------------------------------------------------------

  /** Every event reports a miss exactly when it is a tick that overruns. */
  lemma EventMisses(k: K, ev: Event, i: nat, job: Job)
    requires Inv(k) && Enabled(k, ev) && Holds(k, i, job)
    ensures Shaped(k)
    ensures Misses(Next(k, ev).log, i) == Misses(k.log, i) + if Overruns(k, ev, i, job) then 1 else 0
  {
    hide Core, Next, Misses, Unmissed;
    CoreShaped(k);
    if ev.TickBy? {
      NextTick(k, ev);
      TickMisses(k, ev.e, ev.c, i);
    } else {
      CallUnmissed(k, ev);
      UnmissedCount(k.log, Next(k, ev).log, i);
    }
  }

  lemma {:induction false} RunMisses(k: K, evs: seq<Event>, r: K, i: nat, job: Job)
    requires Inv(k) && Leads(k, evs, r) && Holds(k, i, job)
    ensures Holds(r, i, JobIn(k, evs, i, job))
    ensures Misses(r.log, i) == Misses(k.log, i) + OverrunsIn(k, evs, i, job)
    decreases |evs|
  {
    hide Core, Next, Enabled, Misses, Track, Overruns;
    if evs != [] {
      CoreShaped(k);
      EventTracks(k, evs[0], i, job);
      EventMisses(k, evs[0], i, job);
      NextKeeps(k, evs[0]);
      RunMisses(Next(k, evs[0]), evs[1..], r, i, Track(k, evs[0], i, job));
    }
  }

  /** In every run from a new kernel a slot holds the period and the deadline that AddTask was told for its
      task, and as duration the ticks for which the task was awake since its current job began; and the misses
      that the strategy was told are exactly the ticks that found the task awake and brought its job beyond
      that deadline. */
  lemma MissesExactly(mode: Mode, n: nat, evs: seq<Event>, r: K, i: nat)
    requires ModeOk(mode) && n > 0 && Leads(NewKernel(mode, n), evs, r) && i < n
    ensures Holds(r, i, JobIn(NewKernel(mode, n), evs, i, NO_JOB))
    ensures Misses(r.log, i) == OverrunsIn(NewKernel(mode, n), evs, i, NO_JOB)
  {
    hide Leads, Inv, JobIn, OverrunsIn;
    NewInv(mode, n);
    RunMisses(NewKernel(mode, n), evs, r, i, NO_JOB);
  }

  /** After every run, a tick reports a miss of a task exactly when it finds the task awake and the awake ticks
      since its job began, this one included, exceed the deadline that AddTask was told. */
  lemma MissedExactly(mode: Mode, n: nat, evs: seq<Event>, r: K, i: nat, e: int, c: Choice)
    requires ModeOk(mode) && n > 0 && Leads(NewKernel(mode, n), evs, r) && i < n
    requires Shaped(r) && Enabled(r, TickBy(e, c)) && i < |r.tasks|
    ensures var job := JobIn(NewKernel(mode, n), evs, i, NO_JOB);
      Misses(Tick(r, e, c).log, i) == Misses(r.log, i) +
        if mode.hrt && Busy(r.tasks[i]) && !Asleep(r.tasks[i]) && job.used + e > job.deadline then 1 else 0
  {
    hide Leads, JobIn, Core, Enabled, Misses, Next;
    RunsKeep(mode, n, evs, r);
    MissesExactly(mode, n, evs, r, i);
    NewInv(mode, n);
    RunMode(NewKernel(mode, n), evs, r);
    NextTick(r, TickBy(e, c));
    EventMisses(r, TickBy(e, c), i, JobIn(NewKernel(mode, n), evs, i, NO_JOB));
  }
}
