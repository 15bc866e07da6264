/** Which slot an event can touch, and what that means for suspended and waiting tasks. */
module KernelFrame {
  import opened KernelTypes
  import opened KernelSpec
  import opened KernelInv
  import opened KernelSync
  import opened KernelRuns
  import opened KernelCalls
  import opened KernelTick

  /** The event is about slot `i`: it names its task, comes from it, wakes it or switches it. */
  ghost predicate Targets(k: K, ev: Event, i: nat)
    requires i < |k.tasks|
  {
    match ev
    case Remove(id) => Named(k, id, i)
    case Expel(id) => Named(k, id, i)
    case Suspend(id) => Named(k, id, i)
    case Resume(id) => Named(k, id, i)
    case Cancel(id) => Named(k, id, i)
    case Boost(id, w) => Named(k, id, i)
    case Rebase(id, base) => Named(k, id, i)
    case Unboost(id, sobj) => Named(k, id, i)
    case Quantum(id, q) => Named(k, id, i)
    case Wake(s, everyone) => i in WaitList(k, s)
    case Add(_, _) => false
    case Initialize => false
    case Stop => false
    case SetLock(_, _) => false
    case TickBy(_, _) => true
    case Start(_) => true
    case _ => k.now == Some(i)
  }

  ghost predicate Named(k: K, id: nat, i: nat)
    requires i < |k.tasks|
  {
    Busy(k.tasks[i]) && k.tasks[i].user.value.id == id
  }

  lemma {:induction false} WakeEachOthers(k: K, ws: seq<nat>, i: nat)
    requires Shaped(k) && InRange(ws, |k.tasks|) && i < |k.tasks| && i !in ws
    ensures WakeEach(k, ws).tasks[i] == k.tasks[i]
    decreases |ws|
  {
    if ws != [] {
      assert ws[0] in ws && forall x :: x in ws[1..] ==> x in ws;
      var k1 := EndWaitAndWake(k, ws[0], Signaled);
      assert k1.tasks[i] == k.tasks[i];
      hide EndWaitAndWake;
      WakeEachOthers(k1, ws[1..], i);
    }
  }

  lemma WakeOthers(k: K, s: nat, everyone: bool, i: nat)
    requires Shaped(k) && i < |k.tasks| && i !in WaitList(k, s)
    ensures Signal(k, s, everyone).tasks[i] == k.tasks[i]
  {
    var ws := WaitList(k, s);
    if ws != [] { assert ws[0] in ws; }
    WakeEachOthers(k, ws, i);
  }

  lemma ForceOthers(k: K, id: nat, c: Choice, i: nat)
    requires Shaped(k) && Fits(k, c) && i < |k.tasks| && k.now != Some(i)
    ensures ForceSwitch(k, id, c).tasks[i] == k.tasks[i]
  {
    hide Post, HrtOut;
    var b := ForceBody(k, id);
    if b.Some? { assert b.value.tasks[i] == k.tasks[i] && b.value.now == k.now; }
  }

  /** Calls that name a task by its id. */
  predicate NamesTask(ev: Event) {
    ev.Remove? || ev.Expel? || ev.Suspend? || ev.Resume? || ev.Cancel? || ev.Boost? || ev.Rebase? || ev.Unboost?
    || ev.Quantum?
  }

  lemma NamedOthers(k: K, ev: Event, i: nat)
    requires Shaped(k) && Enabled(k, ev) && i < |k.tasks| && !Targets(k, ev, i) && NamesTask(ev) && Busy(k.tasks[i])
    ensures i < |Next(k, ev).tasks| && Next(k, ev).tasks[i] == k.tasks[i]
  {
    assert Find(k, ev.id) != Some(i);
    if ev.Expel? || ev.Cancel? || ev.Remove? {
      hide Post, EffWeight, ScheduleSleep, WakeTask, Unbind, WorkDone, WaitList, Without, FindFrom;
    } else {
      hide Post, EffWeight, ScheduleSleep, WakeTask, MaxWeight, BaseWeight, WaitList, Without, FindFrom,
        ScheduleTaskRemoval, CancelTaskWait, RemoveTask;
    }
  }

  lemma CallerOthers(k: K, ev: Event, i: nat)
    requires Shaped(k) && Enabled(k, ev) && i < |k.tasks| && !Targets(k, ev, i) && Busy(k.tasks[i])
    requires !NamesTask(ev) && !ev.Wake? && !ev.Force?
    ensures i < |Next(k, ev).tasks| && Next(k, ev).tasks[i] == k.tasks[i]
  {
    if ev.Add? || ev.Exit? || ev.Block? {
      PoolOthers(k, ev, i);
    } else {
      hide Post, EffWeight, ScheduleSleep, WorkDone, BaseWeight, AddTask, ExitTask, WaitOn;
    }
  }

  lemma PoolOthers(k: K, ev: Event, i: nat)
    requires Shaped(k) && Enabled(k, ev) && i < |k.tasks| && !Targets(k, ev, i) && Busy(k.tasks[i])
    requires ev.Add? || ev.Exit? || ev.Block?
    ensures i < |Next(k, ev).tasks| && Next(k, ev).tasks[i] == k.tasks[i]
  {
    hide Post, EffWeight, ScheduleSleep, WorkDone, HrtInit, Bind, BaseWeight, WaitList, Without, Collides;
  }

  /** An event leaves every slot alone that it is not about. */
  lemma OthersUntouched(k: K, ev: Event, i: nat)
    requires Shaped(k) && Enabled(k, ev) && i < |k.tasks| && Busy(k.tasks[i]) && !Targets(k, ev, i)
    ensures i < |Next(k, ev).tasks| && Next(k, ev).tasks[i] == k.tasks[i]
  {
    if ev.Wake? {
      WakeOthers(k, ev.s, ev.everyone, i);
    } else if ev.Force? {
      ForceOthers(k, ev.id, ev.c, i);
    } else if NamesTask(ev) {
      hide Next;
      NamedOthers(k, ev, i);
    } else {
      hide Next;
      CallerOthers(k, ev, i);
    }
  }

  /** The task is suspended, or it will be as soon as its sleep or wait is over. */
  predicate Parked(t: Task) { Busy(t) && (t.suspended || t.suspendPending) && Asleep(t) && !t.removePending }

  /** A tick leaves a parked task parked: a deferred suspension is committed instead of waking the task. */
  lemma TickParked(k: K, e: int, c: Choice, i: nat)
    requires Inv(k) && Enabled(k, TickBy(e, c)) && !k.mode.hrt && i < |k.tasks| && Parked(k.tasks[i])
    ensures var t := Tick(k, e, c).tasks[i]; Parked(t) && t.user == k.tasks[i].user && !t.sleepPending
  {
    hide Core, TickBody, SlotTask, TickWait;
    CoreShaped(k);
    ParkedFacts(k, i);
    ParkedSlot(k.mode, k.tasks[i], e);
    TickTask(k, e, i);
    TickTasks(k, e, c);
  }

  lemma ParkedFacts(k: K, i: nat)
    requires Inv(k) && !k.mode.hrt && i < |k.tasks|
    ensures var t := k.tasks[i];
      && (t.suspended ==> Infinite(t) && !IsWaiting(t)) && (IsWaiting(t) ==> Infinite(t))
  {
    assert SlotInv(k, i);
  }

  lemma ParkedSlot(m: Mode, t: Task, e: int)
    requires !m.hrt && Parked(t) && (t.suspended ==> Infinite(t) && !IsWaiting(t)) && (IsWaiting(t) ==> Infinite(t))
    ensures var u := SlotTask(m, TickWait(t, e), true, e); Parked(u) && u.user == t.user && !u.sleepPending
  {
  }

  /** Outside HRT mode the scheduler step changes no task. */
  lemma TickTasks(k: K, e: int, c: Choice)
    requires Shaped(k) && Fits(k, c)
    ensures !k.mode.hrt ==> Tick(k, e, c).tasks == TickBody(k, e).tasks
  {
    hide TickSyncs, SweepFrom;
  }

  /** A parked task stays parked and bound through every event but its own resumption or removal, and a sleep
      that was delivered does not become pending again. */
  lemma ParkedStep(k: K, ev: Event, i: nat)
    requires Inv(k) && Enabled(k, ev) && !k.mode.hrt && i < |k.tasks| && Parked(k.tasks[i])
    requires ev.Resume? || ev.Expel? || ev.Remove? ==> ev.id != k.tasks[i].user.value.id
    ensures i < |Next(k, ev).tasks|
    ensures var t := Next(k, ev).tasks[i];
      Parked(t) && t.user == k.tasks[i].user && (!k.tasks[i].sleepPending ==> !t.sleepPending)
  {
    if ev.TickBy? {
      hide Core;
      CoreShaped(k);
      TickParked(k, ev.e, ev.c, i);
    } else if ev.Start? {
      StartParked(k, ev.c, i);
    } else if !Targets(k, ev, i) {
      hide Core, Next;
      CoreShaped(k);
      OthersUntouched(k, ev, i);
    } else if ev.Wake? {
      WakeEither(k, ev.s, ev.everyone, i);
    } else {
      ParkedTarget(k, ev, i);
    }
  }

  lemma StartParked(k: K, c: Choice, i: nat)
    requires Inv(k) && Enabled(k, Start(c)) && i < |k.tasks| && Parked(k.tasks[i])
    ensures var t := OnStart(k, c).tasks[i];
      Parked(t) && t.user == k.tasks[i].user && t.wait == k.tasks[i].wait && !t.sleepPending
  {
    StartFromKeeps(k, 0);
    hide WaitsInv, Distinct, Replay, StartFrom;
  }

  /** A signal wakes a waiter or leaves it alone. */
  lemma WakeEither(k: K, s: nat, everyone: bool, i: nat)
    requires Inv(k) && i < |k.tasks|
    ensures Shaped(k) && var t := Signal(k, s, everyone).tasks[i];
      t == k.tasks[i] || (IsWaiting(k.tasks[i]) && t == SignalTask(k.tasks[i]))
  {
    if k.mode.sync {
      if everyone {
        WakeAllFifo(k, s);
      } else if WaitList(k, s) != [] {
        WaitListWaiting(k, s);
        var x := WaitList(k, s)[0];
        assert x in WaitList(k, s) && k.tasks[x].wait.sync == Some(s);
        hide Core, EndWaitAndWake, SignalTask;
        WakeFirst(k, WaitList(k, s), s);
      }
    }
  }

  /** Events about a parked task that do not resume or remove it. */
  lemma ParkedTarget(k: K, ev: Event, i: nat)
    requires Inv(k) && Enabled(k, ev) && !k.mode.hrt && i < |k.tasks| && Parked(k.tasks[i])
    requires Targets(k, ev, i) && !ev.TickBy? && !ev.Start? && !ev.Resume? && !ev.Expel? && !ev.Remove? && !ev.Wake?
    ensures i < |Next(k, ev).tasks|
    ensures var t := Next(k, ev).tasks[i];
      Parked(t) && t.user == k.tasks[i].user && (!k.tasks[i].sleepPending ==> !t.sleepPending)
  {
    assert SlotInv(k, i);
    CoreShaped(k);
    if NamesTask(ev) {
      FindIsUnique(k, ev.id, i);
      hide Core, Next;
      ParkedNamed(k, ev, i);
    } else if ev.Force? {
      hide Core, UpdateFsmState, Post, EffWeight;
      ForceTasks(k, ev.id, ev.c);
    } else {
      hide Core, Post, EffWeight, WaitList;
    }
  }

  lemma ParkedNamed(k: K, ev: Event, i: nat)
    requires Shaped(k) && Enabled(k, ev) && i < |k.tasks| && Parked(k.tasks[i])
    requires NamesTask(ev) && !ev.Resume? && !ev.Expel? && !ev.Remove? && Find(k, ev.id) == Some(i)
    ensures i < |Next(k, ev).tasks|
    ensures var t := Next(k, ev).tasks[i];
      Parked(t) && t.user == k.tasks[i].user && (!k.tasks[i].sleepPending ==> !t.sleepPending)
  {
    hide Post, EffWeight, MaxWeight, BaseWeight, WaitList, Without, FindFrom, ScheduleTaskRemoval, RemoveTask,
      ResumeTask;
  }

  lemma ForceTasks(k: K, id: nat, c: Choice)
    requires Shaped(k) && Fits(k, c) && !k.mode.hrt
    ensures ForceSwitch(k, id, c).tasks == if ForceBody(k, id).Some? then ForceBody(k, id).value.tasks else k.tasks
  {
    hide Post, EffWeight;
  }

  /** The pool holds at most one slot per task, so the search finds it. */
  lemma FindIsUnique(k: K, id: nat, i: nat)
    requires Distinct(k.tasks) && i < |k.tasks| && Named(k, id, i)
    ensures Find(k, id) == Some(i)
  {
    FindReaches(k.tasks, id, 0, i);
  }

  lemma {:induction false} FindReaches(ts: seq<Task>, id: nat, a: nat, i: nat)
    requires Distinct(ts) && a <= i < |ts| && Busy(ts[i]) && ts[i].user.value.id == id
    ensures FindFrom(ts, id, a) == Some(i)
    decreases i - a
  {
    if a < i { FindReaches(ts, id, a + 1, i); }
  }

  // ---- waits ----------------------------------------------------------------------------------

  /** The result of a wait that ended stays until the task itself takes it or waits again. */
  lemma WaitResultStays(k: K, ev: Event, i: nat)
    requires Inv(k) && Enabled(k, ev) && i < |k.tasks| && Busy(k.tasks[i]) && !IsWaiting(k.tasks[i])
    requires (ev.Block? || ev.Unblock?) ==> k.now != Some(i)
    ensures i < |Next(k, ev).tasks| && Next(k, ev).tasks[i].wait.state == k.tasks[i].wait.state
  {
    assert SlotInv(k, i);
    assert ev.Wake? ==> (k.tasks[i].wait.sync == Some(ev.s) <==> i in WaitList(k, ev.s));
    if ev.TickBy? {
      TickWaitState(k, ev.e, ev.c, i);
    } else if ev.Start? {
      StartFromKeeps(k, 0);
    } else if !Targets(k, ev, i) {
      hide Core, Next;
      OthersUntouched(k, ev, i);
    } else {
      TargetWait(k, ev, i);
    }
  }

  lemma TargetWait(k: K, ev: Event, i: nat)
    requires Shaped(k) && Enabled(k, ev) && i < |k.tasks| && !IsWaiting(k.tasks[i])
    requires Targets(k, ev, i) && !ev.TickBy? && !ev.Start? && !ev.Wake? && !ev.Block? && !ev.Unblock?
    ensures i < |Next(k, ev).tasks| && Next(k, ev).tasks[i].wait.state == k.tasks[i].wait.state
  {
    if ev.Force? {
      ForceWait(k, ev.id, ev.c, i);
    } else if NamesTask(ev) {
      NamedWait(k, ev, i);
    } else {
      hide Post, EffWeight, MaxWeight, BaseWeight, WaitList, Without;
    }
  }

  lemma NamedWait(k: K, ev: Event, i: nat)
    requires Shaped(k) && Enabled(k, ev) && i < |k.tasks| && !IsWaiting(k.tasks[i]) && NamesTask(ev)
    ensures i < |Next(k, ev).tasks| && Next(k, ev).tasks[i].wait.state == k.tasks[i].wait.state
  {
    hide Post, EffWeight, MaxWeight, BaseWeight, WaitList, Without, FindFrom, ScheduleTaskRemoval, CancelTaskWait;
    if ev.Expel? { ExpelWait(k, ev.id, i); }
    else if ev.Cancel? { CancelWait(k, ev.id, i); }
  }

  lemma ExpelWait(k: K, id: nat, i: nat)
    requires i < |k.tasks| && !IsWaiting(k.tasks[i])
    ensures i < |ScheduleTaskRemoval(k, id).tasks|
    ensures ScheduleTaskRemoval(k, id).tasks[i].wait.state == k.tasks[i].wait.state
  {
    hide Post, EffWeight, WaitList, Without, FindFrom;
  }

  lemma CancelWait(k: K, id: nat, i: nat)
    requires i < |k.tasks| && !IsWaiting(k.tasks[i])
    ensures i < |CancelTaskWait(k, id).tasks| && CancelTaskWait(k, id).tasks[i].wait.state == k.tasks[i].wait.state
  {
    hide Post, EffWeight, WaitList, Without, FindFrom;
  }

  lemma ForceWait(k: K, id: nat, c: Choice, i: nat)
    requires Shaped(k) && Fits(k, c) && i < |k.tasks|
    ensures ForceSwitch(k, id, c).tasks[i].wait == k.tasks[i].wait
  {
    hide Post, EffWeight;
    var b := ForceBody(k, id);
    if b.Some? {
      assert b.value.tasks[i].wait == k.tasks[i].wait;
      hide ForceBody;
      FsmWait(b.value, c, i);
    }
  }

  lemma FsmWait(k: K, c: Choice, i: nat)
    requires Shaped(k) && Fits(k, c) && i < |k.tasks|
    ensures UpdateFsmState(k, c).tasks[i].wait == k.tasks[i].wait
  {
    if k.now.Some? {
      var now := k.now.value;
      hide Table, FetchNextEvent;
      assert HrtOut(k.tasks[now]).wait == k.tasks[now].wait;
      hide HrtOut;
    }
  }

  lemma TickWaitState(k: K, e: int, c: Choice, i: nat)
    requires Inv(k) && Enabled(k, TickBy(e, c)) && i < |k.tasks| && !IsWaiting(k.tasks[i])
    ensures Tick(k, e, c).tasks[i].wait.state == k.tasks[i].wait.state
  {
    hide Core, TickBody, UpdateFsmState;
    CoreShaped(k);
    BodyWait(k, e, i);
    FsmWait(TickBody(k, e), c, i);
  }

  /** WakeAll wakes exactly the waiters found in the list, in FIFO order, with a signal, and
      leaves the list empty. */
  lemma WakeAllFifo(k: K, s: nat)
    requires Inv(k) && k.mode.sync
    ensures var r := Signal(k, s, true);
            && WaitList(r, s) == []
            && r.log == k.log + Signals(WaitList(k, s))
            && forall i :: 0 <= i < |k.tasks| ==>
                 r.tasks[i] == if k.tasks[i].wait.sync == Some(s) then SignalTask(k.tasks[i]) else k.tasks[i]
  {
    WaitListWaiting(k, s);
    forall i: nat | i < |k.tasks| ensures k.tasks[i].wait.sync == Some(s) <==> i in WaitList(k, s) {}
    forall i: nat | i in WaitList(k, s) ensures i < |k.tasks| && k.tasks[i].wait.sync == Some(s) {}
    hide Core;
    WakeEachIs(k, WaitList(k, s), s);
  }

  function Signals(ws: seq<nat>): seq<Note> {
    if ws == [] then [] else [WaitEnded(ws[0], Signaled)] + Signals(ws[1..])
  }

  function SignalTask(t: Task): Task { WakeTask(t.(wait := Wait(None, 0, Signaled))) }

  lemma WakeFirst(k: K, ws: seq<nat>, s: nat)
    requires Shaped(k) && ws != [] && ws == WaitList(k, s) && ws[0] < |k.tasks| && k.tasks[ws[0]].wait.sync == Some(s)
    ensures var r := EndWaitAndWake(k, ws[0], Signaled);
            && r.tasks == k.tasks[ws[0] := SignalTask(k.tasks[ws[0]])]
            && r.log == k.log + [WaitEnded(ws[0], Signaled)] && WaitList(r, s) == ws[1..] && Shaped(r)
  {
    hide Post;
    assert Without(ws, ws[0]) == ws[1..];
  }

  lemma {:induction false} WakeEachIs(k: K, ws: seq<nat>, s: nat)
    requires Shaped(k) && ws == WaitList(k, s) && NoDup(ws)
    requires InRange(ws, |k.tasks|) && forall i :: i in ws ==> k.tasks[i].wait.sync == Some(s)
    ensures var r := WakeEach(k, ws);
            && WaitList(r, s) == [] && r.log == k.log + Signals(ws)
            && forall i :: 0 <= i < |k.tasks| ==>
                 r.tasks[i] == if i in ws then SignalTask(k.tasks[i]) else k.tasks[i]
    decreases |ws|
  {
    hide EndWaitAndWake, SignalTask;
    if ws != [] {
      assert ws[0] in ws && forall x :: x in ws[1..] ==> x in ws;
      WakeFirst(k, ws, s);
      WakeEachIs(EndWaitAndWake(k, ws[0], Signaled), ws[1..], s);
      assert k.log + Signals(ws) == (k.log + [WaitEnded(ws[0], Signaled)]) + Signals(ws[1..]);
      assert forall i :: i in ws <==> i == ws[0] || i in ws[1..];
    } else {
      assert k.log + Signals(ws) == k.log;
    }
  }
}
