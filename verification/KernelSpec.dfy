/** Every kernel entry point as a function on the kernel state. The class in Kernel.dfy is proved
    equal to these functions; the theorems are proved about them. */
module KernelSpec {
  import opened KernelTypes

  /** A kernel of `n` slots as its constructor leaves it. */
  function NewKernel(mode: Mode, n: nat): K {
    K(mode, seq(n, _ => FREE_TASK), None, FsmNone, Inactive, 0, [], map[], EMPTY_LEDGER, [])
  }

  // ---- one slot -------------------------------------------------------------------------------

  function Reload(t: Task): Task { t.(ts := t.ts.(left := t.ts.quantum)) }

  /** KernelTask::ScheduleSleep. */
  function ScheduleSleep(t: Task, n: int): Task {
    Reload(t.(sleepPending := t.sleepPending || !Asleep(t), sleep := -n))
  }

  /** KernelTask::Wake. */
  function WakeTask(t: Task): Task {
    t.(sleep := -1, wakePending := t.wakePending || t.sleepPending)
  }

  /** KernelTask::CommitSuspend. */
  function CommitSuspend(t: Task): Task {
    t.(suspendPending := false, suspended := true, sleep := -WAIT_INFINITE)
  }

  /** KernelTask::Bind, on a free slot. */
  function Bind(m: Mode, t: Task, u: User): Task {
    var q := if m.timeslice then u.quantum else NO_TIME_SLICE;
    t.(user := Some(u), rtWeight := NO_WEIGHT, baseWeight := NO_WEIGHT, ts := Slice(q, q))
  }

  /** KernelTask::Unbind. */
  function Unbind(t: Task): Task {
    t.(user := None, removePending := false, sleepPending := false, wakePending := false,
       suspended := false, yieldPending := false, suspendPending := false,
       sleep := 0, hrt := Hrt(0, 0, 0, false), ts := Slice(0, 0))
  }

  /** KernelTask::HrtInit. */
  function HrtInit(t: Task, period: int, deadline: int, delay: int): Task {
    var t1 := t.(hrt := t.hrt.(period := period, deadline := deadline));
    if delay > 0 then ScheduleSleep(t1, delay) else t1
  }

  /** KernelTask::HrtOnSwitchedOut. */
  function HrtOut(t: Task): Task {
    var rest := t.hrt.period - t.hrt.duration;
    var t1 := if rest > 0 then ScheduleSleep(t, rest) else t;
    t1.(hrt := t1.hrt.(duration := 0, done := false))
  }

  /** KernelTask::HrtOnWorkCompleted, skipped outside HRT mode. */
  function WorkDone(m: Mode, t: Task): Task {
    if m.hrt then t.(hrt := t.hrt.(done := true)) else t
  }

  /** KernelTask::GetSleepTicks. */
  function GetSleepTicks(m: Mode, t: Task, ticks: int): int {
    var r := if m.sync && IsWaiting(t)
             then if t.wait.time > 0 then Min(ticks, t.wait.time) else ticks
             else Min(ticks, Max(0, -t.sleep));
    Max(1, r)
  }

  // ---- kernel plumbing ------------------------------------------------------------------------

  function SetTask(k: K, i: nat, t: Task): (r: K)
    requires i < |k.tasks|
  {
    k.(tasks := k.tasks[i := t])
  }

  /** A call to the strategy, recorded in the history. */
  function Tell(k: K, n: Note): K { k.(strat := Post(k.strat, n), log := k.log + [n]) }

  /** Kernel::ProcessTaskPendingSleep. */
  function DeliverSleep(k: K, i: nat): K
    requires i < |k.tasks|
  {
    var t := k.tasks[i].(sleepPending := false, wakePending := false);
    Tell(SetTask(k, i, t), Slept(i, EffWeight(t)))
  }

  function DeliverWake(k: K, i: nat): K
    requires i < |k.tasks|
  {
    Tell(k, Woke(i, EffWeight(k.tasks[i])))
  }

  /** Kernel::RemoveTask of a slot. */
  function RemoveSlot(k: K, i: nat): K
    requires i < |k.tasks|
  {
    var k1 := Tell(k, Removed(i, EffWeight(k.tasks[i])));
    SetTask(k1, i, Unbind(k.tasks[i]))
  }

  /** First slot at or after `i` bound to user task `u`. */
  function FindFrom(ts: seq<Task>, u: nat, i: nat): Option<nat>
    requires i <= |ts|
    ensures FindFrom(ts, u, i).Some? ==>
              i <= FindFrom(ts, u, i).value < |ts| && Busy(ts[FindFrom(ts, u, i).value])
              && ts[FindFrom(ts, u, i).value].user.value.id == u
    decreases |ts| - i
  {
    if i == |ts| then None
    else if Busy(ts[i]) && ts[i].user.value.id == u then Some(i)
    else FindFrom(ts, u, i + 1)
  }

  function Find(k: K, u: nat): Option<nat>
    ensures Find(k, u).Some? ==> Find(k, u).value < |k.tasks| && Busy(k.tasks[Find(k, u).value])
  {
    FindFrom(k.tasks, u, 0)
  }

  // ---- wait objects ---------------------------------------------------------------------------

  /** List::Unlink of one entry. */
  function Without(s: seq<nat>, i: nat): (r: seq<nat>)
    ensures forall x :: x in r ==> x in s
  {
    if s == [] then [] else if s[0] == i then s[1..] else [s[0]] + Without(s[1..], i)
  }

  /** Ends the wait of slot `i`: unlinks it and records how the wait ended. */
  function EndWait(k: K, i: nat, how: WaitState): K
    requires i < |k.tasks|
  {
    var t := k.tasks[i];
    if t.wait.sync.None? then k else
    var s := t.wait.sync.value;
    var k1 := SetTask(k, i, t.(wait := t.wait.(state := how, sync := None)));
    Tell(k1.(waits := k1.waits[s := Without(WaitList(k1, s), i)]), WaitEnded(i, how))
  }

  /** WaitObject::Wake (signal or timeout) and WaitObject::Cancel. */
  function EndWaitAndWake(k: K, i: nat, how: WaitState): K
    requires i < |k.tasks|
  {
    var k1 := EndWait(k, i, how);
    SetTask(k1, i, WakeTask(k1.tasks[i].(wait := k1.tasks[i].wait.(time := 0))))
  }

  /** WaitObject::SetupWait followed by the registration of the sync object. */
  function BeginWait(k: K, i: nat, s: nat, timeout: int): K
    requires i < |k.tasks|
  {
    var k1 := SetTask(k, i, k.tasks[i].(wait := Wait(Some(s), timeout, Waiting)));
    var k2 := k1.(waits := k1.waits[s := WaitList(k1, s) + [i]],
                  syncs := if s in k1.syncs then k1.syncs else k1.syncs + [s]);
    Tell(k2, WaitBegun(i))
  }

  predicate InRange(xs: seq<nat>, n: nat) { forall x :: x in xs ==> x < n }

  /** Every wait list names slots of the pool, and the current task is a slot. */
  predicate Shaped(k: K) {
    && (forall s :: s in k.waits ==> InRange(k.waits[s], |k.tasks|))
    && (k.now.Some? ==> k.now.value < |k.tasks|)
  }

  predicate Fits(k: K, c: Choice) {
    (c.next.Some? ==> c.next.value < |k.tasks|) && c.first < |k.tasks|
  }

  // ---- the tick: sync objects -----------------------------------------------------------------

  /** WaitObject::Tick, and the timeout wake that follows when it reports expiry. */
  function TickWaiter(k: K, i: nat, e: int): (r: K)
    requires i < |k.tasks|
    ensures |r.tasks| == |k.tasks|
    ensures r == k.(tasks := r.tasks, waits := r.waits, strat := r.strat, log := r.log)
    ensures Shaped(k) ==> Shaped(r)
  {
    var w := k.tasks[i].wait;
    if w.time != WAIT_INFINITE && w.state == Waiting then
      if w.time - e <= 0 then EndWaitAndWake(k, i, TimedOut)
      else SetTask(k, i, k.tasks[i].(wait := w.(time := w.time - e)))
    else if w.state == Waiting then k else EndWaitAndWake(k, i, TimedOut)
  }

  /** ISyncObject::Tick over the waiters found in the list when the walk began. */
  function TickWaiters(k: K, ws: seq<nat>, e: int): (r: K)
    requires InRange(ws, |k.tasks|)
    ensures |r.tasks| == |k.tasks|
    ensures r == k.(tasks := r.tasks, waits := r.waits, strat := r.strat, log := r.log)
    ensures Shaped(k) ==> Shaped(r)
    decreases |ws|
  {
    if ws == [] then k else
    assert ws[0] in ws && forall x :: x in ws[1..] ==> x in ws;
    TickWaiters(TickWaiter(k, ws[0], e), ws[1..], e)
  }

  /** One sync object of UpdateSyncObjects: ticked, and unlinked when no waiter is left. */
  function TickSync(k: K, s: nat, e: int): (r: K)
    requires Shaped(k)
    ensures |r.tasks| == |k.tasks| && Shaped(r)
    ensures r == k.(tasks := r.tasks, waits := r.waits, syncs := r.syncs, strat := r.strat, log := r.log)
  {
    var k1 := TickWaiters(k, WaitList(k, s), e);
    if WaitList(k1, s) == [] then k1.(syncs := Without(k1.syncs, s)) else k1
  }

  function TickSyncs(k: K, ss: seq<nat>, e: int): (r: K)
    requires Shaped(k)
    ensures |r.tasks| == |k.tasks| && Shaped(r)
    ensures r == k.(tasks := r.tasks, waits := r.waits, syncs := r.syncs, strat := r.strat, log := r.log)
    decreases |ss|
  {
    if ss == [] then k else TickSyncs(TickSync(k, ss[0], e), ss[1..], e)
  }

  /** Kernel::UpdateSyncObjects. */
  function UpdateSyncObjects(k: K, e: int): (r: K)
    requires Shaped(k)
    ensures |r.tasks| == |k.tasks| && Shaped(r)
    ensures r == k.(tasks := r.tasks, waits := r.waits, syncs := r.syncs, strat := r.strat, log := r.log)
  {
    if k.mode.sync then TickSyncs(k, k.syncs, e) else k
  }

  // ---- the tick: task slots -------------------------------------------------------------------

  /** The slot may be freed: it is not the current task, or it is the last one under the sleep trap. */
  predicate Removable(k: K, i: nat) {
    k.now != Some(i) || (|k.strat.all| == 1 && k.fsm == Sleeping)
  }

  /** The part of UpdateTaskState that advances a sleeping slot once its entry was delivered. */
  function AdvanceSleep(k: K, i: nat, e: int): (r: K)
    requires i < |k.tasks|
    ensures |r.tasks| == |k.tasks|
    ensures r == k.(tasks := r.tasks, strat := r.strat, log := r.log)
  {
    var t := k.tasks[i];
    if t.suspendPending && t.sleep + e >= 0 then SetTask(k, i, CommitSuspend(t))
    else
      var k1 := SetTask(k, i, t.(sleep := t.sleep + e));
      if t.sleep + e < 0 then k1 else DeliverWake(k1, i)
  }

  /** The part of UpdateTaskState that charges an active slot in HRT mode. */
  function ChargeHrt(k: K, i: nat, e: int): (r: K)
    requires i < |k.tasks|
    ensures |r.tasks| == |k.tasks|
    ensures r == k.(tasks := r.tasks, strat := r.strat, log := r.log)
  {
    var t := k.tasks[i];
    if !(k.mode.hrt && Busy(t)) then k else
    var k1 := SetTask(k, i, t.(hrt := t.hrt.(duration := t.hrt.duration + e)));
    if t.hrt.duration + e > t.hrt.deadline then Tell(k1, Missed(i)) else k1
  }

  /** One pass of the loop in Kernel::UpdateTaskState over slot `i`. */
  function TickSlot(k: K, i: nat, e: int): (r: K)
    requires i < |k.tasks|
    ensures |r.tasks| == |k.tasks|
    ensures r == k.(tasks := r.tasks, strat := r.strat, log := r.log)
  {
    var k1 := if k.mode.noSleepYield then SetTask(k, i, k.tasks[i].(yieldPending := false)) else k;
    var t := k1.tasks[i];
    if !Asleep(t) then ChargeHrt(k1, i, e)
    else if k.mode.dynamic && t.removePending && Removable(k1, i) then RemoveSlot(k1, i)
    else
      var k2 := if t.sleepPending then DeliverSleep(k1, i) else k1;
      if (t.sleepPending && !t.wakePending) || Infinite(t) then k2 else AdvanceSleep(k2, i, e)
  }

  datatype Sweep = Sweep(k: K, ticks: int)

  /** The slot and the running minimum of the ticks the timer may be suppressed. */
  function SweepSlot(s: Sweep, i: nat, e: int): (r: Sweep)
    requires i < |s.k.tasks|
    ensures |r.k.tasks| == |s.k.tasks|
    ensures r.k == s.k.(tasks := r.k.tasks, strat := r.k.strat, log := r.k.log)
  {
    var k := TickSlot(s.k, i, e);
    Sweep(k, if k.mode.tickless && s.ticks > 1 && Busy(k.tasks[i])
             then GetSleepTicks(k.mode, k.tasks[i], s.ticks) else s.ticks)
  }

  function SweepFrom(s: Sweep, i: nat, e: int): (r: Sweep)
    requires i <= |s.k.tasks|
    ensures |r.k.tasks| == |s.k.tasks|
    ensures r.k == s.k.(tasks := r.k.tasks, strat := r.k.strat, log := r.k.log)
    decreases |s.k.tasks| - i
  {
    if i == |s.k.tasks| then s else SweepFrom(SweepSlot(s, i, e), i + 1, e)
  }

  /** Kernel::UpdateTaskState. */
  function UpdateTaskState(k: K, e: int): (r: Sweep)
    ensures |r.k.tasks| == |k.tasks|
    ensures r.k == k.(tasks := r.k.tasks, strat := r.k.strat, log := r.k.log)
  {
    SweepFrom(Sweep(k, if k.mode.tickless then TICKLESS_TICKS_MAX else 1), 0, e)
  }

  /** The slot UpdateTimeslice charges: a real, runnable current task. */
  predicate Charged(k: K) {
    && k.now.Some? && k.now.value < |k.tasks|
    && (k.fsm == Switching || k.fsm == Waking)
    && Busy(k.tasks[k.now.value]) && !Asleep(k.tasks[k.now.value])
    && k.tasks[k.now.value].ts.quantum != NO_TIME_SLICE
  }

  /** Kernel::UpdateTimeslice. */
  function UpdateTimeslice(k: K, e: int): (r: K)
    ensures |r.tasks| == |k.tasks|
    ensures r == k.(tasks := r.tasks, strat := r.strat, log := r.log)
  {
    if !(k.mode.timeslice && Charged(k)) then k else
    var i := k.now.value;
    var t := k.tasks[i].(ts := k.tasks[i].ts.(left := k.tasks[i].ts.left - e));
    if k.kstate != Locked && t.ts.left <= 0 then Tell(SetTask(k, i, Reload(t)), Sliced(i))
    else SetTask(k, i, t)
  }

  // ---- the scheduler state machine ------------------------------------------------------------

  /** Kernel::FetchNextEvent. */
  function FetchNextEvent(k: K, next: Option<nat>): FsmEvent {
    if next.Some? then if k.fsm == Sleeping then EvWake else EvSwitch
    else if k.mode.dynamic && |k.strat.all| == 0 then EvExit else EvSleep
  }

  /** The transition table m_fsm; FsmNone means that the state is kept. */
  function Table(s: Fsm, ev: FsmEvent): Fsm {
    match (s, ev)
    case (Switching, EvSwitch) => Switching
    case (Switching, EvSleep) => Sleeping
    case (Switching, EvExit) => Exiting
    case (Sleeping, EvWake) => Waking
    case (Sleeping, EvExit) => Exiting
    case (Waking, EvSwitch) => Switching
    case (Waking, EvSleep) => Sleeping
    case (Waking, EvExit) => Exiting
    case _ => FsmNone
  }

  /** Kernel::StateSwitch. */
  function StateSwitch(k: K, now: nat, next: nat): (r: K)
    requires now < |k.tasks|
    ensures |r.tasks| == |k.tasks|
  {
    if next == now then k else
    var k1 := k.(now := Some(next));
    if k.mode.hrt && k.tasks[now].hrt.done then SetTask(k1, now, HrtOut(k.tasks[now])) else k1
  }

  /** Kernel::StateSleep. */
  function StateSleep(k: K, now: nat, first: nat): (r: K)
    requires now < |k.tasks|
    ensures |r.tasks| == |k.tasks|
  {
    var k1 := k.(now := Some(first));
    if k.mode.hrt && !k.tasks[now].removePending then SetTask(k1, now, HrtOut(k.tasks[now])) else k1
  }

  /** Kernel::UpdateFsmState. */
  function UpdateFsmState(k: K, c: Choice): (r: K)
    requires Shaped(k) && Fits(k, c)
    ensures |r.tasks| == |k.tasks| && Shaped(r)
  {
    if k.now.None? then k else
    match Table(k.fsm, FetchNextEvent(k, c.next))
    case Switching => if c.next.None? then k
                      else StateSwitch(k, k.now.value, c.next.value).(fsm := Switching)
    case Sleeping => StateSleep(k, k.now.value, c.first).(fsm := Sleeping)
    case Waking => k.(now := c.next, fsm := Waking)
    case Exiting => k.(now := None, fsm := Exiting)
    case FsmNone => k
  }

  // ---- platform events ------------------------------------------------------------------------

  /** Everything OnTick does before it asks for the next task. */
  function TickBody(k: K, e: int): (r: K)
    requires Shaped(k)
    ensures |r.tasks| == |k.tasks| && Shaped(r)
  {
    UpdateTimeslice(UpdateTaskState(UpdateSyncObjects(k.(ticks := k.ticks + e), e), e).k, e)
  }

  /** The number of ticks OnTick allows the timer to be suppressed. */
  function TickReturn(k: K, e: int): int
    requires Shaped(k)
  {
    UpdateTaskState(UpdateSyncObjects(k.(ticks := k.ticks + e), e), e).ticks
  }

  /** Kernel::OnTick. */
  function Tick(k: K, e: int, c: Choice): (r: K)
    requires Shaped(k) && Fits(k, c)
    ensures |r.tasks| == |k.tasks| && Shaped(r)
  {
    var k1 := TickBody(k, e);
    if k1.kstate == Locked then k1 else UpdateFsmState(k1, c)
  }

  /** Everything OnForceContextSwitch(id) does before it asks for the next task; `None` when it
      does not ask. */
  function ForceBody(k: K, id: nat): (r: Option<K>)
    requires Shaped(k)
    ensures r.Some? ==> |r.value.tasks| == |k.tasks| && Shaped(r.value)
  {
    if k.now.None? then None else
    var i := k.now.value;
    var t := k.tasks[i];
    if t.user.None? || t.user.value.id != id then None
    else if Asleep(t) then
      if !t.sleepPending then None else
      Some(DeliverSleep(if k.kstate == Locked then k.(kstate := Running) else k, i))
    else if k.mode.noSleepYield && t.yieldPending then
      Some(SetTask(k, i, t.(yieldPending := false)))
    else None
  }

  /** Kernel::OnForceContextSwitch. */
  function ForceSwitch(k: K, id: nat, c: Choice): (r: K)
    requires Shaped(k) && Fits(k, c)
    ensures |r.tasks| == |k.tasks| && Shaped(r)
  {
    var b := ForceBody(k, id);
    if b.None? then k else UpdateFsmState(b.value, c)
  }

  /** The loop of Kernel::OnStart: delivers the sleep of every slot added asleep. */
  function StartFrom(k: K, i: nat): (r: K)
    requires i <= |k.tasks|
    ensures |r.tasks| == |k.tasks|
    ensures r == k.(tasks := r.tasks, strat := r.strat, log := r.log)
    decreases |k.tasks| - i
  {
    if i == |k.tasks| then k else
    var t := k.tasks[i];
    if t.sleepPending then
      StartFrom(Tell(SetTask(k, i, t.(sleepPending := false)), Slept(i, EffWeight(t))), i + 1)
    else StartFrom(k, i + 1)
  }

  /** Kernel::OnStart. */
  function OnStart(k: K, c: Choice): (r: K)
    requires Shaped(k) && Fits(k, c)
    ensures |r.tasks| == |k.tasks| && Shaped(r)
  {
    var k1 := StartFrom(k, 0).(fsm := Switching, kstate := Running);
    match Table(Switching, FetchNextEvent(k1, c.next))
    case Switching => k1.(now := c.next)
    case Sleeping => k1.(now := Some(c.first), fsm := Sleeping)
    case _ => k1
  }

  /** Kernel::OnStop. */
  function OnStop(k: K): K {
    if k.mode.dynamic then k.(fsm := FsmNone, kstate := Ready) else k
  }

  /** Kernel::OnSuspend. */
  function OnSuspend(k: K, suspend: bool): (r: K)
    requires Shaped(k)
    ensures |r.tasks| == |k.tasks| && Shaped(r)
  {
    var k1 := k.(kstate := if suspend
                           then if k.kstate == Running || k.kstate == Locked then Suspended else k.kstate
                           else if k.kstate == Suspended then Running else k.kstate);
    if k.now.Some? && !Asleep(k.tasks[k.now.value])
    then SetTask(k1, k.now.value, ScheduleSleep(k.tasks[k.now.value], YIELD_TICKS)) else k1
  }

  // ---- adding and removing tasks --------------------------------------------------------------

  predicate Collides(t: Task, u: User) {
    Busy(t) && (t.user.value.id == u.id || t.user.value.stack == u.stack)
  }

  /** The first free slot at or after `i`. */
  function FreeFrom(ts: seq<Task>, i: nat): (r: Option<nat>)
    requires i <= |ts|
    ensures r.Some? ==> i <= r.value < |ts| && !Busy(ts[r.value])
    ensures r.None? ==> forall j :: i <= j < |ts| ==> Busy(ts[j])
    decreases |ts| - i
  {
    if i == |ts| then None else if !Busy(ts[i]) then Some(i) else FreeFrom(ts, i + 1)
  }

  /** Kernel::TryAllocateNewTask. */
  function TryAllocate(k: K, u: User): (r: (AddResult, Option<nat>))
    ensures r.1.Some? <==> r.0 == AddOk
    ensures r.1.Some? ==> r.1.value < |k.tasks| && !Busy(k.tasks[r.1.value])
  {
    if exists j :: 0 <= j < |k.tasks| && Collides(k.tasks[j], u) then (AddDuplicate, None)
    else if FreeFrom(k.tasks, 0).None? then (AddPoolFull, None)
    else (AddOk, FreeFrom(k.tasks, 0))
  }

  /** Binds slot `i` to `u`; HRT timing is applied before the strategy learns of the task. */
  function BindSlot(k: K, i: nat, u: User, hrt: Option<(int, int, int)>): K
    requires i < |k.tasks|
  {
    var t := Bind(k.mode, k.tasks[i], u);
    var t1 := if hrt.Some? then HrtInit(t, hrt.value.0, hrt.value.1, hrt.value.2) else t;
    Tell(SetTask(k, i, t1), Added(i, EffWeight(t1)))
  }

  predicate HrtTimingOk(h: (int, int, int)) {
    0 < h.0 < WAIT_INFINITE && 0 < h.1 < WAIT_INFINITE && 0 <= h.2 <= WAIT_INFINITE
  }

  /** Both overloads of Kernel::AddTask; `hrt` holds period, deadline and start delay. */
  function AddTask(k: K, u: User, hrt: Option<(int, int, int)>): (K, AddResult) {
    var allowed := if hrt.Some? then k.mode.hrt && HrtTimingOk(hrt.value) && k.now.None?
                   else !k.mode.hrt && (k.mode.dynamic || k.now.None?);
    if !allowed || k.kstate == Inactive then (k, AddInvalid) else
    var (res, slot) := TryAllocate(k, u);
    if slot.None? then (k, res) else (BindSlot(k, slot.value, u, hrt), res)
  }

  /** Kernel::RemoveTask of a user task, before the start. */
  function RemoveTask(k: K, u: nat): K {
    var s := Find(k, u);
    if k.mode.dynamic && k.now.None? && s.Some? then RemoveSlot(k, s.value) else k
  }

  /** KernelTask::ScheduleRemoval. */
  function ScheduleRemoval(k: K, i: nat): K
    requires i < |k.tasks|
  {
    var k1 := EndWait(k, i, Cancelled);
    var t := WorkDone(k.mode, ScheduleSleep(k1.tasks[i], WAIT_INFINITE)).(removePending := true);
    var k2 := SetTask(k1, i, t);
    if k.now != Some(i) && t.sleepPending then DeliverSleep(k2, i) else k2
  }

  /** Kernel::ScheduleTaskRemoval. */
  function ScheduleTaskRemoval(k: K, u: nat): K {
    var s := Find(k, u);
    if k.mode.dynamic && k.now.Some? && s.Some? then ScheduleRemoval(k, s.value) else k
  }

  // ---- suspension, cancellation, lock ---------------------------------------------------------

  /** Kernel::SuspendTask. */
  function SuspendTask(k: K, u: nat): (K, SuspendResult) {
    var s := Find(k, u);
    if s.None? then (k, SuspendFail) else
    var i := s.value;
    var t := k.tasks[i];
    if t.removePending then (k, SuspendFail)
    else if t.suspended || t.suspendPending then (k, SuspendAlready)
    else if Asleep(t) then (SetTask(k, i, t.(suspendPending := true)), SuspendDeferred)
    else if k.kstate == Locked && k.now == Some(i) then (k, SuspendFail)
    else
      var k1 := SetTask(k, i, ScheduleSleep(t, WAIT_INFINITE).(suspended := true));
      (if k.now.Some? && k.now != Some(i) then DeliverSleep(k1, i) else k1, SuspendDone)
  }

  /** Kernel::ResumeTask. */
  function ResumeTask(k: K, u: nat): (r: (K, ResumeResult))
    ensures |r.0.tasks| == |k.tasks|
  {
    var s := Find(k, u);
    if s.None? then (k, ResumeFail) else
    var i := s.value;
    var t := k.tasks[i];
    if t.removePending then (k, ResumeFail)
    else if t.suspended then
      var t1 := t.(suspended := false);
      (SetTask(k, i, if Asleep(t1) then WakeTask(t1) else t1), ResumeDone)
    else if t.suspendPending then (SetTask(k, i, t.(suspendPending := false)), ResumeLifted)
    else (k, ResumeNotSuspended)
  }

  /** Kernel::CancelTaskWait. */
  function CancelTaskWait(k: K, u: nat): (r: K)
    ensures |r.tasks| == |k.tasks|
  {
    var s := Find(k, u);
    if s.None? then k else
    var i := s.value;
    if k.mode.sync && IsWaiting(k.tasks[i]) then EndWaitAndWake(k, i, Cancelled)
    else if Asleep(k.tasks[i]) && !k.tasks[i].suspended then SetTask(k, i, WakeTask(k.tasks[i]))
    else k
  }

  /** Kernel::SetSchedulerLock; reports the previous state. */
  function SetSchedulerLock(k: K, lock: bool, isr: bool): (K, LockResult) {
    if k.mode.hrt then (k, LockFail)
    else if isr then (k, LockFailIsr)
    else if k.kstate == Running || k.kstate == Locked then
      (k.(kstate := if lock then Locked else Running),
       if k.kstate == Locked then LockWasLocked else LockWasUnlocked)
    else (k, LockFail)
  }

  // ---- calls of the running task --------------------------------------------------------------

  /** Kernel::OnTaskSleepImpl, for the current task. */
  function OnTaskSleep(k: K, n: int): (K, bool)
    requires k.now.Some? && k.now.value < |k.tasks|
  {
    var i := k.now.value;
    var t := WorkDone(k.mode, k.tasks[i]);
    if n > 0 then (SetTask(k, i, ScheduleSleep(t, n)), true) else (SetTask(k, i, t), false)
  }

  /** KernelService::Sleep. */
  function Sleep(k: K, n: int): (K, bool)
    requires k.now.Some? && k.now.value < |k.tasks|
  {
    if k.mode.hrt || k.kstate == Locked then (k, false) else OnTaskSleep(k, n)
  }

  /** KernelService::SleepUntil. */
  function SleepUntil(k: K, timestamp: int): (K, bool)
    requires k.now.Some? && k.now.value < |k.tasks|
  {
    var i := k.now.value;
    var delta := timestamp - k.ticks;
    if k.mode.hrt || k.kstate == Locked || delta <= 0 then (k, false)
    else (SetTask(k, i, ScheduleSleep(k.tasks[i], Min(delta, WAIT_INFINITE))), true)
  }

  /** KernelService::SwitchToNext; `handled` is the answer of the strategy's OnTaskYield(). */
  function SwitchToNext(k: K, handled: bool): K
    requires k.now.Some? && k.now.value < |k.tasks|
  {
    if k.kstate == Locked then k
    else if k.mode.noSleepYield && !k.mode.hrt then
      var i := k.now.value;
      if Asleep(k.tasks[i]) then OnTaskSleep(k, YIELD_TICKS).0
      else
        var k1 := Tell(k, Yielded(i));
        if handled then SetTask(k1, i, Reload(k.tasks[i].(yieldPending := true)))
        else OnTaskSleep(k1, YIELD_TICKS).0
    else OnTaskSleep(k, YIELD_TICKS).0
  }

  /** KernelService::ExitTask. */
  function ExitTask(k: K): K
    requires k.now.Some? && k.now.value < |k.tasks|
  {
    if k.mode.dynamic then ScheduleRemoval(k, k.now.value) else k
  }

  /** KernelService::Wait up to the point where the task gives up the CPU. */
  function WaitOn(k: K, s: nat, timeout: int): (K, bool)
    requires k.now.Some? && k.now.value < |k.tasks|
  {
    if !k.mode.sync || k.kstate == Locked then (k, false) else
    var i := k.now.value;
    var k1 := BeginWait(k, i, s, timeout);
    (SetTask(k1, i, ScheduleSleep(k1.tasks[i], WAIT_INFINITE)), true)
  }

  /** The end of OnTaskWait, after the task was switched in again. */
  function FinishWait(k: K): (K, WaitResult)
    requires k.now.Some? && k.now.value < |k.tasks|
  {
    var i := k.now.value;
    var t := k.tasks[i];
    (SetTask(k, i, t.(wait := t.wait.(state := Idle))),
     match t.wait.state
     case TimedOut => WaitTimeout
     case Cancelled => WaitCanceled
     case Signaled => WaitSignal
     case _ => WaitFail)
  }

  /** ISyncObject::WakeOne. */
  function WakeOne(k: K, s: nat): (r: K)
    requires Shaped(k)
    ensures |r.tasks| == |k.tasks| && Shaped(r)
  {
    var ws := WaitList(k, s);
    if ws == [] then k else
    assert ws[0] in ws;
    EndWaitAndWake(k, ws[0], Signaled)
  }

  /** ISyncObject::WakeAll, as the FIFO walk over the waiters found at the start. */
  function WakeEach(k: K, ws: seq<nat>): (r: K)
    requires Shaped(k) && InRange(ws, |k.tasks|)
    ensures |r.tasks| == |k.tasks| && Shaped(r)
    decreases |ws|
  {
    if ws == [] then k else
    assert ws[0] in ws && forall x :: x in ws[1..] ==> x in ws;
    WakeEach(EndWaitAndWake(k, ws[0], Signaled), ws[1..])
  }

  /** KernelService::Wake. */
  function Signal(k: K, s: nat, everyone: bool): (r: K)
    requires Shaped(k)
    ensures |r.tasks| == |k.tasks| && Shaped(r)
  {
    if !k.mode.sync then k
    else if everyone then WakeEach(k, WaitList(k, s)) else WakeOne(k, s)
  }

  // ---- weights and time slices ----------------------------------------------------------------

  /** Kernel::OnInheritWeight. */
  function InheritWeight(k: K, u: nat, w: int): K {
    var s := Find(k, u);
    if !k.mode.inherit || w == NO_WEIGHT || s.None? then k else
    var i := s.value;
    var prev := EffWeight(k.tasks[i]);
    if prev >= w then k else
    Tell(SetTask(k, i, k.tasks[i].(rtWeight := w)), Reweighed(i, prev, w))
  }

  /** Kernel::OnSetWeight; returns the previous base weight. */
  function SetWeight(k: K, u: nat, w: nat): (K, int) {
    var s := Find(k, u);
    if !k.mode.inherit || s.None? then (k, NO_WEIGHT) else
    var i := s.value;
    var t := k.tasks[i];
    var t1 := t.(baseWeight := w, rtWeight := if t.rtWeight <= w then NO_WEIGHT else t.rtWeight);
    (Tell(SetTask(k, i, t1), Reweighed(i, EffWeight(t), EffWeight(t1))), BaseWeight(t))
  }

  /** The highest weight among the user tasks of the listed slots, NO_WEIGHT if there is none. */
  function MaxWeight(ts: seq<Task>, ws: seq<nat>): (m: int)
    requires InRange(ws, |ts|)
    ensures m >= NO_WEIGHT && forall x :: x in ws && Busy(ts[x]) ==> ts[x].user.value.weight <= m
    ensures m == NO_WEIGHT || exists x :: x in ws && Busy(ts[x]) && ts[x].user.value.weight == m
    decreases |ws|
  {
    if ws == [] then NO_WEIGHT else
    assert ws[0] in ws && forall x :: x in ws[1..] ==> x in ws;
    var u := ts[ws[0]].user;
    Max(if u.Some? then u.value.weight else NO_WEIGHT, MaxWeight(ts, ws[1..]))
  }

  /** Kernel::OnRestoreWeight. */
  function RestoreWeight(k: K, u: nat, s: Option<nat>): K
    requires Shaped(k)
  {
    var slot := Find(k, u);
    if !k.mode.inherit || slot.None? then k else
    var i := slot.value;
    var t := k.tasks[i];
    var boost := if s.None? then NO_WEIGHT
                 else var w := MaxWeight(k.tasks, WaitList(k, s.value));
                      if w > EffWeight(t) then w else NO_WEIGHT;
    var t1 := t.(rtWeight := boost);
    Tell(SetTask(k, i, t1), Reweighed(i, EffWeight(t), EffWeight(t1)))
  }

  /** Kernel::OnSetTimeSlice; returns the previous quantum. */
  function SetTimeSlice(k: K, u: nat, q: nat): (K, int) {
    var s := Find(k, u);
    if !k.mode.timeslice || s.None? then (k, NO_TIME_SLICE) else
    var t := k.tasks[s.value];
    (SetTask(k, s.value, t.(ts := Slice(q, q))), t.ts.quantum)
  }
}
