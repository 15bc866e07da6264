/** Time slices and scheduling weights over runs. */
module KernelSlices {
  import opened KernelTypes
  import opened KernelSpec
  import opened KernelInv
  import opened KernelSync
  import opened KernelRuns
  import opened KernelCalls
  import opened KernelTheorems
  import opened KernelTick
  import opened KernelSched
  import opened KernelFrame
  import opened KernelTiming

  // ---- time slices ----------------------------------------------------------------------------

  /** In every reachable state a sliced task has between 1 and quantum ticks left, unless it is the
      current task, awake and charged since the scheduler was locked. */
  lemma SlicesInRange(mode: Mode, n: nat, evs: seq<Event>, r: K, i: nat)
    requires ModeOk(mode) && n > 0 && Leads(NewKernel(mode, n), evs, r) && i < |r.tasks|
    ensures var t := r.tasks[i];
            && t.ts.left <= t.ts.quantum
            && (t.ts.quantum > 0 && (r.now != Some(i) || Asleep(t) || t.yieldPending || r.fsm == Sleeping)
                ==> 1 <= t.ts.left)
  {
    RunsKeep(mode, n, evs, r);
    assert SlotInv(r, i);
  }

  /** The state in which a tick charges the running task. */
  function Swept(k: K, e: int): K
    requires Shaped(k)
  {
    UpdateTaskState(UpdateSyncObjects(k.(ticks := k.ticks + e), e), e).k
  }

  /** The tick charges slot `i`: it is the current task, has a quantum, and is on the CPU and awake once the
      timers of this tick have run. */
  predicate Charges(k: K, e: int, i: nat)
    requires Shaped(k) && i < |k.tasks|
  {
    && k.mode.timeslice && k.now == Some(i) && k.fsm != Sleeping && k.tasks[i].ts.quantum > 0
    && var t := TickBody(k, e).tasks[i]; Busy(t) && !Asleep(t)
  }

  /** Exactly the charged task is the one whose slice UpdateTimeslice looks at. */
  lemma ChargesExactly(k: K, e: int, i: nat)
    requires Inv(k) && e >= 0 && i < |k.tasks|
    ensures Shaped(k)
    ensures k.mode.timeslice ==> (Charges(k, e, i) <==> Charged(Swept(k, e)) && Swept(k, e).now == Some(i))
  {
    QuantumFacts(k, i);
    hide Core, Swept, TickBody;
    SweptSlice(k, e, i);
    BodyIs(k, e);
    SliceFrame(Swept(k, e), e, i);
  }

  lemma QuantumFacts(k: K, i: nat)
    requires Inv(k) && i < |k.tasks|
    ensures k.tasks[i].ts.quantum >= 0
    ensures k.now == Some(i) ==> k.fsm == Switching || k.fsm == Waking || k.fsm == Sleeping
  {
    assert SlotInv(k, i);
  }

  /** The tick offers slot `i` for rotation: it calls OnTaskTimeSlice for it. */
  predicate Rotates(k: K, e: int, i: nat)
    requires Shaped(k)
  {
    TickBody(k, e).log == Swept(k, e).log + [Sliced(i)]
  }

  // ---- the ticks charged since the last reload ------------------------------------------------

  /** The call starts a fresh slice for slot `i`: it puts the task to sleep, parks it, takes its handled
      yield, expels it, or gives it a new quantum. */
  ghost predicate Reloads(k: K, ev: Event, i: nat)
    requires i < |k.tasks|
  {
    var t := k.tasks[i];
    match ev
    case Nap(n) => k.now == Some(i) && !k.mode.hrt && k.kstate != Locked && n > 0
    case NapUntil(timestamp) => k.now == Some(i) && !k.mode.hrt && k.kstate != Locked && timestamp > k.ticks
    case Yield(_) => k.now == Some(i) && k.kstate != Locked
    case Exit => k.now == Some(i) && k.mode.dynamic
    case Block(_, _) => k.now == Some(i) && k.mode.sync && k.kstate != Locked
    case Pause(_) => k.now == Some(i) && !Asleep(t)
    case Expel(id) => Named(k, id, i) && k.mode.dynamic && k.now.Some?
    case Suspend(id) => Named(k, id, i) && !t.removePending && !t.suspended && !t.suspendPending && !Asleep(t)
                        && !(k.kstate == Locked && k.now == Some(i))
    case Quantum(id, _) => Named(k, id, i) && k.mode.timeslice
    case _ => false
  }

  /** The ticks charged to slot `i` since its last reload, after one more event: a tick that charges it adds
      its length, and starts over when that reaches the quantum while the scheduler is not locked. */
  ghost function Since(k: K, ev: Event, i: nat, acc: int): int
    requires Shaped(k) && Enabled(k, ev) && i < |k.tasks|
  {
    if !Busy(k.tasks[i]) || i >= |Next(k, ev).tasks| || !Busy(Next(k, ev).tasks[i]) || Reloads(k, ev, i) then 0
    else if !ev.TickBy? || !Charges(k, ev.e, i) then acc
    else if k.kstate != Locked && acc + ev.e >= k.tasks[i].ts.quantum then 0
    else acc + ev.e
  }

  ghost function ChargedSince(k: K, evs: seq<Event>, i: nat, acc: int): int
    decreases |evs|
  {
    if evs == [] || !(Shaped(k) && Enabled(k, evs[0]) && i < |k.tasks|) then acc
    else ChargedSince(Next(k, evs[0]), evs[1..], i, Since(k, evs[0], i, acc))
  }

  /** What is left of the slice is the quantum without what was charged. */
  predicate Accounts(k: K, i: nat, acc: int) {
    i < |k.tasks| && k.tasks[i].ts.left == k.tasks[i].ts.quantum - acc
  }

  // ---- one event ------------------------------------------------------------------------------

  /** A slot that is bound keeps its slice through the timers of a tick. */
  lemma SweptSlice(k: K, e: int, i: nat)
    requires Inv(k) && e >= 0 && i < |k.tasks|
    ensures Shaped(k)
    ensures var w := Swept(k, e);
      && i < |w.tasks| && w.now == k.now && w.kstate == k.kstate && w.mode == k.mode && w.fsm == k.fsm
      && ((w.tasks[i].ts == k.tasks[i].ts && w.tasks[i].user == k.tasks[i].user) || !Busy(w.tasks[i]))
  {
    hide Core, UpdateSyncObjects, SweepFrom, TickWait;
    CoreShaped(k);
    var k0 := k.(ticks := k.ticks + e);
    ClockKeeps(k, k0);
    SyncTick(k0, e);
    var k1 := UpdateSyncObjects(k0, e);
    WaitKeepsSlice(k.tasks[i], e);
    SweepSlice(Sweep(k1, if k1.mode.tickless then TICKLESS_TICKS_MAX else 1), 0, e, i);
  }

  /** The same task with the same slice, or none. */
  predicate KeepsSlice(t: Task, u: Task) { (u.ts == t.ts && u.user == t.user) || !Busy(u) }

  lemma WaitKeepsSlice(t: Task, e: int)
    ensures TickWait(t, e).ts == t.ts && TickWait(t, e).user == t.user
  {
  }

  lemma {:induction false} SweepSlice(s: Sweep, i: nat, e: int, j: nat)
    requires i <= |s.k.tasks| && j < |s.k.tasks|
    ensures KeepsSlice(s.k.tasks[j], SweepFrom(s, i, e).k.tasks[j])
    decreases |s.k.tasks| - i
  {
    hide TickSlot, SlotTask, Removable, GetSleepTicks;
    if i < |s.k.tasks| {
      VisitSlice(s.k, i, e, j);
      SweepSlice(SweepSlot(s, i, e), i + 1, e, j);
    }
  }

  lemma VisitSlice(k: K, i: nat, e: int, j: nat)
    requires i < |k.tasks| && j < |k.tasks|
    ensures KeepsSlice(k.tasks[j], TickSlot(k, i, e).tasks[j])
  {
    TickSlotIs(k, i, e);
    SlotSlice(k.mode, k.tasks[i], Removable(k, i), e);
  }

  lemma SlotSlice(m: Mode, t: Task, removable: bool, e: int)
    ensures KeepsSlice(t, SlotTask(m, t, removable, e))
  {
  }

  /** A tick rotates slot `i` exactly when it charges the task, the scheduler is not locked and the slice is
      used up; the slice then starts over. */
  lemma ChargeIs(k: K, e: int, i: nat)
    requires k.mode.timeslice && i < |k.tasks|
    ensures var r, t := UpdateTimeslice(k, e), k.tasks[i].ts;
      var charged := Charged(k) && k.now == Some(i);
      var over := charged && k.kstate != Locked && t.left <= e;
      && (r.log == k.log + [Sliced(i)] <==> over)
      && r.tasks[i].user == k.tasks[i].user
      && r.tasks[i].ts == if over then Slice(t.quantum, t.quantum)
                          else if charged then Slice(t.quantum, t.left - e) else t
  {
    hide Post;
    var r := UpdateTimeslice(k, e);
    if r.log == k.log + [Sliced(i)] {
      assert |r.log| == |k.log| + 1 && r.log[|k.log|] == Sliced(i);
    }
  }

  lemma BodyIs(k: K, e: int)
    requires Shaped(k)
    ensures TickBody(k, e) == UpdateTimeslice(Swept(k, e), e)
  {
    hide UpdateSyncObjects, UpdateTaskState, UpdateTimeslice;
  }

  /** A slot without a task has no slice, and in a mode without slices no slot has one. */
  lemma NoSliceAtAll(k: K, i: nat)
    requires Inv(k) && i < |k.tasks| && (!Busy(k.tasks[i]) || !k.mode.timeslice)
    ensures k.tasks[i].ts.left == k.tasks[i].ts.quantum == 0
  {
    assert SlotInv(k, i);
  }

  lemma TickAccounts(k: K, e: int, c: Choice, i: nat, acc: int)
    requires Inv(k) && Enabled(k, TickBy(e, c)) && k.mode.timeslice && Accounts(k, i, acc)
    requires Busy(k.tasks[i]) && Shaped(k) && Busy(Tick(k, e, c).tasks[i])
    ensures Accounts(Tick(k, e, c), i, Since(k, TickBy(e, c), i, acc))
    ensures Rotates(k, e, i) <==> Charges(k, e, i) && k.kstate != Locked && acc + e >= k.tasks[i].ts.quantum
  {
    hide Core, Swept, UpdateFsmState, TickBody;
    SweptSlice(k, e, i);
    ModeFacts(k);
    BodyIs(k, e);
    TickTasks(k, e, c);
    ChargesExactly(k, e, i);
    ChargeIs(Swept(k, e), e, i);
  }

  /** Only AddTask binds a slot, and it does so with a full slice. */
  lemma FreeAccounts(k: K, ev: Event, i: nat)
    requires Inv(k) && Enabled(k, ev) && i < |k.tasks| && !Busy(k.tasks[i])
    ensures i < |Next(k, ev).tasks| && Accounts(Next(k, ev), i, 0)
  {
    hide Core, Enabled;
    NoSliceAtAll(k, i);
    CoreShaped(k);
    if ev.Add? {
      BindsFull(k, ev.u, ev.hrt, i);
    } else {
      hide Next;
      StaysFree(k, ev, i);
      NextKeeps(k, ev);
      NoSliceAtAll(Next(k, ev), i);
    }
  }

  lemma BindsFull(k: K, u: User, hrt: Option<(int, int, int)>, i: nat)
    requires i < |k.tasks| && !Busy(k.tasks[i]) && k.tasks[i].ts.left == k.tasks[i].ts.quantum
    ensures var r := AddTask(k, u, hrt).0; i < |r.tasks| && Accounts(r, i, 0)
  {
    hide TryAllocate, Post, EffWeight;
  }

  lemma StaysFree(k: K, ev: Event, i: nat)
    requires Inv(k) && Enabled(k, ev) && i < |k.tasks| && !Busy(k.tasks[i]) && !ev.Add?
    ensures i < |Next(k, ev).tasks| && !Busy(Next(k, ev).tasks[i])
  {
    assert SlotInv(k, i);
    hide Core;
    CoreShaped(k);
    if ev.TickBy? {
      TickFree(k, ev.e, ev.c, i);
    } else if ev.Start? {
      StartFree(k, ev.c, i);
    } else if ev.Force? {
      ForceFree(k, ev.id, ev.c, i);
    } else if ev.Wake? {
      WakeEither(k, ev.s, ev.everyone, i);
    } else if NamesTask(ev) {
      NamedFree(k, ev, i);
    } else {
      hide Post, EffWeight, ScheduleSleep, WorkDone, BaseWeight, WaitList, Without, FindFrom;
      if k.now == Some(i) { FreeIsNotNow(k, i); }
    }
  }

  lemma FreeIsNotNow(k: K, i: nat)
    requires Inv(k) && i < |k.tasks| && !Busy(k.tasks[i])
    ensures k.now != Some(i)
  {
    assert SlotInv(k, i);
  }

  lemma TickFree(k: K, e: int, c: Choice, i: nat)
    requires Inv(k) && Enabled(k, TickBy(e, c)) && i < |k.tasks| && !Busy(k.tasks[i])
    ensures Shaped(k) && !Busy(Tick(k, e, c).tasks[i])
  {
    FreeIsNotNow(k, i);
    hide Core, TickBody, UpdateFsmState, Swept, UpdateTimeslice;
    CoreShaped(k);
    SweptSlice(k, e, i);
    BodyIs(k, e);
    SliceFrame(Swept(k, e), e, i);
    BodyFrame(k, e);
    FsmElsewhere(TickBody(k, e), c, i);
  }

  lemma FsmElsewhere(b: K, c: Choice, i: nat)
    requires Shaped(b) && Fits(b, c) && i < |b.tasks| && b.now != Some(i)
    ensures UpdateFsmState(b, c).tasks[i] == b.tasks[i]
  {
    hide HrtOut;
  }

  lemma StartFree(k: K, c: Choice, i: nat)
    requires Inv(k) && Enabled(k, Start(c)) && i < |k.tasks|
    ensures OnStart(k, c).tasks[i] == k.tasks[i].(sleepPending := false)
  {
    StartFromKeeps(k, 0);
    hide WaitsInv, Distinct, Replay, StartFrom;
  }

  lemma ForceFree(k: K, id: nat, c: Choice, i: nat)
    requires Inv(k) && Enabled(k, Force(id, c)) && i < |k.tasks| && !Busy(k.tasks[i])
    ensures Shaped(k) && !Busy(ForceSwitch(k, id, c).tasks[i])
  {
    FreeIsNotNow(k, i);
    hide Core;
    CoreShaped(k);
    ForceOthers(k, id, c, i);
  }

  lemma NamedFree(k: K, ev: Event, i: nat)
    requires Shaped(k) && Enabled(k, ev) && i < |k.tasks| && !Busy(k.tasks[i]) && NamesTask(ev)
    ensures i < |Next(k, ev).tasks| && !Busy(Next(k, ev).tasks[i])
  {
    if ev.Expel? || ev.Cancel? || ev.Remove? {
      EndsFree(k, ev, i);
    } else {
      hide Post, EffWeight, ScheduleSleep, WakeTask, MaxWeight, BaseWeight, WaitList, Without, FindFrom,
        ScheduleTaskRemoval, CancelTaskWait, RemoveTask;
    }
  }

  lemma EndsFree(k: K, ev: Event, i: nat)
    requires Shaped(k) && Enabled(k, ev) && i < |k.tasks| && !Busy(k.tasks[i])
    requires ev.Expel? || ev.Cancel? || ev.Remove?
    ensures i < |Next(k, ev).tasks| && !Busy(Next(k, ev).tasks[i])
  {
    hide Post, EffWeight, ScheduleSleep, WakeTask, WorkDone, WaitList, Without, FindFrom;
  }

  /** Calls about the task itself. */
  lemma TargetAccounts(k: K, ev: Event, i: nat, acc: int)
    requires Inv(k) && Enabled(k, ev) && k.mode.timeslice && Accounts(k, i, acc) && Busy(k.tasks[i])
    requires Targets(k, ev, i) && !ev.TickBy? && !ev.Start? && !ev.Force? && !ev.Wake?
    requires i < |Next(k, ev).tasks| && Busy(Next(k, ev).tasks[i])
    ensures Accounts(Next(k, ev), i, if Reloads(k, ev, i) then 0 else acc)
  {
    assert SlotInv(k, i);
    ModeFacts(k);
    if NamesTask(ev) {
      FindIsUnique(k, ev.id, i);
      hide Core;
      CoreShaped(k);
      NamedAccounts(k, ev, i, acc);
    } else {
      hide Core, Post, EffWeight, BaseWeight, WaitList, Without, FindFrom;
    }
  }

  lemma NamedAccounts(k: K, ev: Event, i: nat, acc: int)
    requires Shaped(k) && Enabled(k, ev) && k.mode.timeslice && !k.mode.hrt && Accounts(k, i, acc) && Busy(k.tasks[i])
    requires NamesTask(ev) && Find(k, ev.id) == Some(i) && Named(k, ev.id, i)
    requires i < |Next(k, ev).tasks| && Busy(Next(k, ev).tasks[i])
    ensures Accounts(Next(k, ev), i, if Reloads(k, ev, i) then 0 else acc)
  {
    if ev.Expel? || ev.Cancel? || ev.Remove? {
      EndsAccounts(k, ev, i, acc);
    } else if ev.Suspend? || ev.Resume? {
      ParkAccounts(k, ev, i, acc);
    } else {
      hide Post, EffWeight, MaxWeight, BaseWeight, WaitList, Without, FindFrom, ScheduleTaskRemoval, CancelTaskWait,
        RemoveTask, SuspendTask, ResumeTask;
    }
  }

  lemma ParkAccounts(k: K, ev: Event, i: nat, acc: int)
    requires Shaped(k) && Enabled(k, ev) && Accounts(k, i, acc) && Busy(k.tasks[i])
    requires (ev.Suspend? || ev.Resume?) && Find(k, ev.id) == Some(i) && Named(k, ev.id, i)
    ensures Accounts(Next(k, ev), i, if Reloads(k, ev, i) then 0 else acc)
  {
    hide Post, EffWeight, FindFrom;
  }

  lemma EndsAccounts(k: K, ev: Event, i: nat, acc: int)
    requires Shaped(k) && Enabled(k, ev) && Accounts(k, i, acc) && Busy(k.tasks[i]) && !k.mode.hrt
    requires (ev.Expel? || ev.Cancel? || ev.Remove?) && Find(k, ev.id) == Some(i) && Named(k, ev.id, i)
    requires i < |Next(k, ev).tasks| && Busy(Next(k, ev).tasks[i])
    ensures Accounts(Next(k, ev), i, if Reloads(k, ev, i) then 0 else acc)
  {
    hide Post, EffWeight, WaitList, Without, FindFrom;
  }

  /** Every event keeps the account. */
  lemma EventAccounts(k: K, ev: Event, i: nat, acc: int)
    requires Inv(k) && Enabled(k, ev) && Accounts(k, i, acc)
    ensures Shaped(k) && Accounts(Next(k, ev), i, Since(k, ev, i, acc))
  {
    CoreShaped(k);
    if !Busy(k.tasks[i]) {
      hide Core, Next, Enabled;
      FreeAccounts(k, ev, i);
    } else if !k.mode.timeslice {
      hide Core, Next, Enabled, Reloads;
      NoSliceAtAll(k, i);
      NextKeeps(k, ev);
      ClockSteps(k, ev);
      StillThere(k, ev, i);
      NoSliceAtAll(Next(k, ev), i);
    } else {
      hide Core;
      BusyAccounts(k, ev, i, acc);
    }
  }

  /** No event shrinks the pool. */
  lemma StillThere(k: K, ev: Event, i: nat)
    requires Inv(k) && Enabled(k, ev) && i < |k.tasks|
    ensures i < |Next(k, ev).tasks|
  {
    hide Core;
    CoreShaped(k);
    if ev.Wake? {
      WakeEither(k, ev.s, ev.everyone, i);
    } else if NamesTask(ev) {
      hide Next, Enabled;
      NamedThere(k, ev);
    } else {
      hide Post, EffWeight, ScheduleSleep, WorkDone, BaseWeight, WaitList, Without, FindFrom, TryAllocate, HrtInit,
        Bind, TickBody, UpdateFsmState, ForceBody, StartFrom;
    }
  }

  lemma NamedThere(k: K, ev: Event)
    requires Shaped(k) && Enabled(k, ev) && NamesTask(ev)
    ensures |Next(k, ev).tasks| == |k.tasks|
  {
    if ev.Expel? || ev.Cancel? || ev.Remove? {
      EndsThere(k, ev);
    } else {
      hide Post, EffWeight, ScheduleSleep, WakeTask, MaxWeight, BaseWeight, WaitList, Without, FindFrom,
        ScheduleTaskRemoval, CancelTaskWait, RemoveTask;
    }
  }

  lemma EndsThere(k: K, ev: Event)
    requires Shaped(k) && Enabled(k, ev) && (ev.Expel? || ev.Cancel? || ev.Remove?)
    ensures |Next(k, ev).tasks| == |k.tasks|
  {
    hide Post, EffWeight, ScheduleSleep, WakeTask, WorkDone, WaitList, Without, FindFrom, Unbind;
  }

  lemma BusyAccounts(k: K, ev: Event, i: nat, acc: int)
    requires Inv(k) && Shaped(k) && Enabled(k, ev) && Accounts(k, i, acc) && k.mode.timeslice && Busy(k.tasks[i])
    ensures Accounts(Next(k, ev), i, Since(k, ev, i, acc))
  {
    hide Core, Next, Enabled;
    StillThere(k, ev, i);
    ModeFacts(k);
    if !Busy(Next(k, ev).tasks[i]) {
      NextKeeps(k, ev);
      NoSliceAtAll(Next(k, ev), i);
    } else if ev.TickBy? {
      NextTick(k, ev);
      TickAccounts(k, ev.e, ev.c, i, acc);
    } else if !Targets(k, ev, i) {
      OthersUntouched(k, ev, i);
      NotReloaded(k, ev, i);
    } else if ev.Start? || ev.Force? || ev.Wake? {
      SwitchAccounts(k, ev, i);
    } else {
      TargetAccounts(k, ev, i, acc);
    }
  }

  lemma NotReloaded(k: K, ev: Event, i: nat)
    requires Shaped(k) && i < |k.tasks| && !Targets(k, ev, i)
    ensures !Reloads(k, ev, i)
  {
  }

  lemma SwitchAccounts(k: K, ev: Event, i: nat)
    requires Inv(k) && Enabled(k, ev) && i < |k.tasks| && !k.mode.hrt && (ev.Start? || ev.Force? || ev.Wake?)
    ensures i < |Next(k, ev).tasks| && Next(k, ev).tasks[i].ts == k.tasks[i].ts
  {
    if ev.Start? {
      StartFree(k, ev.c, i);
    } else if ev.Wake? {
      WakeEither(k, ev.s, ev.everyone, i);
    } else {
      CoreShaped(k);
      hide Core, Post, EffWeight;
      ForceTasks(k, ev.id, ev.c);
    }
  }

  // ---- every run ------------------------------------------------------------------------------

  lemma {:induction false} RunAccounts(k: K, evs: seq<Event>, r: K, i: nat, acc: int)
    requires Inv(k) && Leads(k, evs, r) && Accounts(k, i, acc)
    ensures Accounts(r, i, ChargedSince(k, evs, i, acc))
    decreases |evs|
  {
    hide Core, Next, Enabled, Since, Accounts;
    if evs != [] {
      CoreShaped(k);
      AccountsIn(k, i, acc);
      EventAccounts(k, evs[0], i, acc);
      NextKeeps(k, evs[0]);
      RunAccounts(Next(k, evs[0]), evs[1..], r, i, Since(k, evs[0], i, acc));
    }
  }

  lemma AccountsIn(k: K, i: nat, acc: int)
    requires Accounts(k, i, acc)
    ensures i < |k.tasks|
  {
  }

  /** In every run, through sleeps, yields, exits, suspensions, quantum changes and lock periods, what is left
      of a task's slice is its quantum without the ticks charged since its last reload. */
  lemma SlicesAccount(mode: Mode, n: nat, evs: seq<Event>, r: K, i: nat)
    requires ModeOk(mode) && n > 0 && Leads(NewKernel(mode, n), evs, r) && i < n
    ensures Accounts(r, i, ChargedSince(NewKernel(mode, n), evs, i, 0))
  {
    hide Leads, Inv, ChargedSince;
    NewInv(mode, n);
    RunAccounts(NewKernel(mode, n), evs, r, i, 0);
  }

  /** After every run, a tick offers a task for rotation exactly when it charges the task, the scheduler is
      not locked, and the ticks charged since the last reload reach the quantum. */
  lemma RotatesExactly(mode: Mode, n: nat, evs: seq<Event>, r: K, i: nat, e: int, c: Choice)
    requires ModeOk(mode) && n > 0 && Leads(NewKernel(mode, n), evs, r) && i < n && mode.timeslice
    requires Shaped(r) && Enabled(r, TickBy(e, c)) && i < |r.tasks|
    ensures Rotates(r, e, i) <==>
      Charges(r, e, i) && r.kstate != Locked &&
      ChargedSince(NewKernel(mode, n), evs, i, 0) + e >= r.tasks[i].ts.quantum
  {
    hide Leads, ChargedSince, Core, Enabled, Charges, Rotates;
    RunsKeep(mode, n, evs, r);
    SlicesAccount(mode, n, evs, r, i);
    NewInv(mode, n);
    RunMode(NewKernel(mode, n), evs, r);
    RotationIs(r, e, c, i);
  }

  lemma {:induction false} RunMode(k: K, evs: seq<Event>, r: K)
    requires Inv(k) && Leads(k, evs, r)
    ensures r.mode == k.mode
    decreases |evs|
  {
    hide Core, Next, Enabled;
    if evs != [] {
      CoreShaped(k);
      NextKeeps(k, evs[0]);
      ClockSteps(k, evs[0]);
      RunMode(Next(k, evs[0]), evs[1..], r);
    }
  }

  lemma RotationIs(k: K, e: int, c: Choice, i: nat)
    requires Inv(k) && Shaped(k) && Enabled(k, TickBy(e, c)) && k.mode.timeslice && i < |k.tasks|
    ensures Rotates(k, e, i) <==> Charges(k, e, i) && k.kstate != Locked && k.tasks[i].ts.left <= e
  {
    hide Core, Swept, TickBody;
    SweptSlice(k, e, i);
    BodyIs(k, e);
    ChargesExactly(k, e, i);
    ChargeIs(Swept(k, e), e, i);
  }

  // ---- weights --------------------------------------------------------------------------------

  /** Across all boosts, weight changes and restorations the effective weight is never below the base
      weight, and every task the strategy lists is filed under its effective weight. */
  lemma WeightIndex(mode: Mode, n: nat, evs: seq<Event>, r: K, i: nat)
    requires ModeOk(mode) && n > 0 && Leads(NewKernel(mode, n), evs, r) && i < |r.tasks|
    ensures Busy(r.tasks[i]) ==> EffWeight(r.tasks[i]) >= BaseWeight(r.tasks[i]) >= 0
    ensures i in r.strat.filed ==> r.strat.filed[i] == EffWeight(r.tasks[i])
  {
    RunsKeep(mode, n, evs, r);
    assert SlotInv(r, i);
  }

  /** Each OnTaskWeightChange of a run names the weight under which the strategy had filed the task. */
  lemma OldWeightIsFiled(mode: Mode, n: nat, evs: seq<Event>, r: K, a: nat)
    requires ModeOk(mode) && n > 0 && Leads(NewKernel(mode, n), evs, r)
    requires a < |r.log| && r.log[a].Reweighed?
    ensures Replay(r.log[..a]).Some?
    ensures var g, w := Replay(r.log[..a]).value, r.log[a]; w.i in g.filed ==> g.filed[w.i] == w.oldW
  {
    RunsKeep(mode, n, evs, r);
    hide Leads;
    ReplayPrefix(r.log, a);
  }
}
