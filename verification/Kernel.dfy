/** The kernel as it runs: slots updated in place, loops over the pool and the wait lists. Every method is proved
    equal to its function in KernelSpec.dfy; the entry points keep the invariant and carry what their callers
    rely on. */
module KernelImpl {
  import opened KernelTypes
  import opened KernelInv
  import opened KernelSync
  import opened KernelEntry
  import opened KernelTickless
  import C = KernelCalls
  import R = KernelRuns
  import T = KernelTheorems
  import S = KernelSpec

  class Kernel {
    const mode: Mode
    const tasks: array<Task>
    var now: Option<nat>
    var fsm: Fsm
    var kstate: KState
    var ticks: int
    var syncs: seq<nat>
    var waits: map<nat, seq<nat>>
    var strat: Ledger
    var log: seq<Note>

    ghost function View(): (k: K)
      reads this, tasks
    {
      K(mode, tasks[..], now, fsm, kstate, ticks, syncs, waits, strat, log)
    }

    /** The invariant that every entry point keeps. */
    ghost predicate Valid()
      reads this, tasks
    {
      Inv(View())
    }

    constructor (mode: Mode, n: nat)
      requires T.ModeOk(mode) && n > 0
      ensures Valid() && fresh(tasks) && View() == S.NewKernel(mode, n)
    {
      this.mode := mode;
      tasks := new Task[n](_ => FREE_TASK);
      now, fsm, kstate, ticks := None, FsmNone, Inactive, 0;
      syncs, waits, strat, log := [], map[], EMPTY_LEDGER, [];
      new;
      assert tasks[..] == S.NewKernel(mode, n).tasks;
      T.NewInv(mode, n);
    }

    /** Kernel::Initialize. */
    method Initialize()
      requires Valid() && kstate == Inactive
      modifies `kstate
      ensures Valid() && View() == old(View()).(kstate := Ready)
    {
      kstate := Ready;
      C.InitializeKeeps(old(View()));
    }

    // ---- slots --------------------------------------------------------------------------------

    method Put(i: nat, t: Task)
      requires i < tasks.Length
      modifies tasks
      ensures View() == S.SetTask(old(View()), i, t)
    {
      tasks[i] := t;
      assert tasks[..] == old(tasks[..])[i := t];
    }

    method Tell(n: Note)
      modifies `strat, `log
      ensures View() == S.Tell(old(View()), n)
    {
      strat := Post(strat, n);
      log := log + [n];
    }

    method ScheduleSleep(i: nat, n: int)
      requires i < tasks.Length
      modifies tasks
      ensures View() == S.SetTask(old(View()), i, S.ScheduleSleep(old(tasks[i]), n))
    {
      var t := tasks[i];
      if t.sleep >= 0 {
        t := t.(sleepPending := true);
      }
      t := t.(sleep := -n);
      t := t.(ts := t.ts.(left := t.ts.quantum));
      Put(i, t);
    }

    method Wake(i: nat)
      requires i < tasks.Length
      modifies tasks
      ensures View() == S.SetTask(old(View()), i, S.WakeTask(old(tasks[i])))
    {
      var t := tasks[i].(sleep := -1);
      if t.sleepPending {
        t := t.(wakePending := true);
      }
      Put(i, t);
    }

    method HrtOnSwitchedOut(i: nat)
      requires i < tasks.Length
      modifies tasks
      ensures View() == S.SetTask(old(View()), i, S.HrtOut(old(tasks[i])))
    {
      ghost var k := View();
      var rest := tasks[i].hrt.period - tasks[i].hrt.duration;
      if rest > 0 {
        ScheduleSleep(i, rest);
      }
      Put(i, tasks[i].(hrt := tasks[i].hrt.(duration := 0, done := false)));
      assert View().tasks == S.SetTask(k, i, S.HrtOut(k.tasks[i])).tasks;
    }

    method ProcessTaskPendingSleep(i: nat)
      requires i < tasks.Length
      modifies tasks, `strat, `log
      ensures View() == S.DeliverSleep(old(View()), i)
    {
      Put(i, tasks[i].(sleepPending := false, wakePending := false));
      Tell(Slept(i, EffWeight(tasks[i])));
    }

    method RemoveSlot(i: nat)
      requires i < tasks.Length
      modifies tasks, `strat, `log
      ensures View() == S.RemoveSlot(old(View()), i)
    {
      Tell(Removed(i, EffWeight(tasks[i])));
      Put(i, S.Unbind(tasks[i]));
    }

    method FindTask(u: nat) returns (r: Option<nat>)
      ensures r == S.Find(View(), u)
    {
      var i := 0;
      while i < tasks.Length
        invariant 0 <= i <= tasks.Length
        invariant S.FindFrom(tasks[..], u, i) == S.FindFrom(tasks[..], u, 0)
      {
        if tasks[i].user.Some? && tasks[i].user.value.id == u {
          return Some(i);
        }
        i := i + 1;
      }
      return None;
    }

    // ---- wait objects -------------------------------------------------------------------------

    method EndWait(i: nat, how: WaitState)
      requires i < tasks.Length
      modifies tasks, `waits, `strat, `log
      ensures View() == S.EndWait(old(View()), i, how)
    {
      var t := tasks[i];
      if t.wait.sync.Some? {
        var s := t.wait.sync.value;
        Put(i, t.(wait := t.wait.(state := how, sync := None)));
        var list := if s in waits then waits[s] else [];
        waits := waits[s := S.Without(list, i)];
        Tell(WaitEnded(i, how));
      }
    }

    method EndWaitAndWake(i: nat, how: WaitState)
      requires i < tasks.Length
      modifies tasks, `waits, `strat, `log
      ensures View() == S.EndWaitAndWake(old(View()), i, how)
    {
      ghost var k := View();
      EndWait(i, how);
      Put(i, tasks[i].(wait := tasks[i].wait.(time := 0)));
      Wake(i);
      assert View().tasks == S.EndWaitAndWake(k, i, how).tasks;
    }

    method TickWaiter(i: nat, e: int)
      requires i < tasks.Length
      modifies tasks, `waits, `strat, `log
      ensures View() == S.TickWaiter(old(View()), i, e)
    {
      var w := tasks[i].wait;
      var expired := w.state != Waiting;
      if w.time != WAIT_INFINITE && w.state == Waiting {
        if w.time - e <= 0 {
          expired := true;
        } else {
          Put(i, tasks[i].(wait := w.(time := w.time - e)));
        }
      }
      if expired {
        EndWaitAndWake(i, TimedOut);
      }
    }

    /** ISyncObject::Tick: the successor is taken before the waiter may unlink itself. */
    method TickSync(s: nat, e: int)
      requires S.Shaped(View())
      modifies tasks, `waits, `syncs, `strat, `log
      ensures View() == S.TickSync(old(View()), s, e)
    {
      hide S.TickWaiter, S.TickWaiters;
      var ws := if s in waits then waits[s] else [];
      ghost var k := View();
      assert ws == WaitList(k, s) && S.InRange(ws, |k.tasks|) && ws[0..] == ws;
      var j := 0;
      while j < |ws|
        invariant 0 <= j <= |ws|
        invariant S.InRange(ws[j..], tasks.Length)
        invariant S.TickWaiters(View(), ws[j..], e) == S.TickWaiters(k, ws, e)
      {
        WaitersStep(View(), ws, j, e);
        TickWaiter(ws[j], e);
        j := j + 1;
      }
      assert ws[j..] == [];
      NoWaiters(View(), e);
      if s !in waits || waits[s] == [] {
        syncs := S.Without(syncs, s);
      }
    }

    method UpdateSyncObjects(e: int)
      requires S.Shaped(View())
      modifies tasks, `waits, `syncs, `strat, `log
      ensures View() == S.UpdateSyncObjects(old(View()), e)
    {
      if mode.sync {
        var ss := syncs;
        ghost var k := View();
        var j := 0;
        while j < |ss|
          invariant 0 <= j <= |ss| && S.Shaped(View())
          invariant S.TickSyncs(View(), ss[j..], e) == S.TickSyncs(k, ss, e)
        {
          assert ss[j..][1..] == ss[j + 1..];
          TickSync(ss[j], e);
          j := j + 1;
        }
        assert ss[j..] == [];
      }
    }

    // ---- the tick -----------------------------------------------------------------------------

    method TickSlot(i: nat, e: int)
      requires i < tasks.Length
      modifies tasks, `strat, `log
      ensures View() == S.TickSlot(old(View()), i, e)
    {
      if mode.noSleepYield {
        Put(i, tasks[i].(yieldPending := false));
      }
      var t := tasks[i];
      if t.sleep < 0 {
        if mode.dynamic && t.removePending && (now != Some(i) || (|strat.all| == 1 && fsm == Sleeping)) {
          RemoveSlot(i);
          return;
        }
        var justEntered := false;
        if t.sleepPending {
          ProcessTaskPendingSleep(i);
          justEntered := !t.wakePending;
        }
        if !justEntered && t.sleep != -WAIT_INFINITE {
          AdvanceSleep(i, e);
        }
      } else if mode.hrt && t.user.Some? {
        Put(i, t.(hrt := t.hrt.(duration := t.hrt.duration + e)));
        if tasks[i].hrt.duration > tasks[i].hrt.deadline {
          Tell(Missed(i));
        }
      }
    }

    method AdvanceSleep(i: nat, e: int)
      requires i < tasks.Length
      modifies tasks, `strat, `log
      ensures View() == S.AdvanceSleep(old(View()), i, e)
    {
      var t := tasks[i];
      if t.suspendPending && t.sleep + e >= 0 {
        Put(i, t.(suspendPending := false, suspended := true, sleep := -WAIT_INFINITE));
      } else {
        Put(i, t.(sleep := t.sleep + e));
        if tasks[i].sleep >= 0 {
          Tell(Woke(i, EffWeight(tasks[i])));
        }
      }
    }

    method UpdateTaskState(e: int) returns (sleepTicks: int)
      modifies tasks, `strat, `log
      ensures S.Sweep(View(), sleepTicks) == S.UpdateTaskState(old(View()), e)
      ensures Shortest(mode, tasks[..], sleepTicks)
    {
      UpdateAnswers(View(), e);
      sleepTicks := if mode.tickless then TICKLESS_TICKS_MAX else 1;
      ghost var s := S.Sweep(View(), sleepTicks);
      var i := 0;
      while i < tasks.Length
        invariant 0 <= i <= tasks.Length
        invariant S.SweepFrom(S.Sweep(View(), sleepTicks), i, e) == S.SweepFrom(s, 0, e)
      {
        TickSlot(i, e);
        if mode.tickless && sleepTicks > 1 && tasks[i].user.Some? {
          sleepTicks := S.GetSleepTicks(mode, tasks[i], sleepTicks);
        }
        i := i + 1;
      }
    }

    method UpdateTimeslice(e: int)
      modifies tasks, `strat, `log
      ensures View() == S.UpdateTimeslice(old(View()), e)
    {
      hide S.Tell, S.SetTask, S.Reload;
      if mode.timeslice && now.Some? && now.value < tasks.Length && (fsm == Switching || fsm == Waking) {
        var i := now.value;
        if tasks[i].user.Some? && tasks[i].sleep >= 0 && tasks[i].ts.quantum != NO_TIME_SLICE {
          var t := tasks[i].(ts := tasks[i].ts.(left := tasks[i].ts.left - e));
          if kstate != Locked && t.ts.left <= 0 {
            Put(i, S.Reload(t));
            Tell(Sliced(i));
          } else {
            Put(i, t);
          }
        }
      }
    }

    method UpdateFsmState(c: Choice)
      requires S.Shaped(View()) && S.Fits(View(), c)
      modifies this, tasks
      ensures View() == S.UpdateFsmState(old(View()), c)
    {
      if now.None? {
        return;
      }
      var cur := now.value;
      var ev := if c.next.Some? then if fsm == Sleeping then EvWake else EvSwitch
                else if mode.dynamic && |strat.all| == 0 then EvExit else EvSleep;
      var newState := S.Table(fsm, ev);
      match newState {
        case Switching =>
          if c.next.Some? {
            if c.next.value != cur {
              now := c.next;
              if mode.hrt && tasks[cur].hrt.done {
                HrtOnSwitchedOut(cur);
              }
            }
            fsm := newState;
          }
        case Sleeping =>
          now := Some(c.first);
          if mode.hrt && !tasks[cur].removePending {
            HrtOnSwitchedOut(cur);
          }
          fsm := newState;
        case Waking =>
          now := c.next;
          fsm := newState;
        case Exiting =>
          now := None;
          fsm := newState;
        case FsmNone =>
      }
    }

    /** One tick interrupt; returns the number of ticks the timer may be suppressed. */
    method OnTick(e: int, c: Choice) returns (sleepTicks: int)
      requires Valid() && R.Enabled(View(), R.TickBy(e, c))
      modifies this, tasks
      ensures View() == S.Tick(old(View()), e, c)
      ensures sleepTicks == S.TickReturn(old(View()), e)
      ensures Valid() && TickMeans(old(View()), View(), e, c, sleepTicks)
    {
      hide Inv, TickMeans, BounceFree, S.UpdateTaskState, S.UpdateSyncObjects, S.UpdateTimeslice, S.UpdateFsmState;
      ModeFacts(View());
      ticks := ticks + e;
      UpdateSyncObjects(e);
      sleepTicks := UpdateTaskState(e);
      UpdateTimeslice(e);
      if kstate != Locked {
        UpdateFsmState(c);
      }
      TickEntry(old(View()), e, c);
    }

    method OnForceContextSwitch(id: nat, c: Choice)
      requires Valid() && R.Enabled(View(), R.Force(id, c))
      modifies this, tasks
      ensures View() == S.ForceSwitch(old(View()), id, c)
      ensures Valid() && ForceMeans(old(View()), View(), id, c)
    {
      hide Inv, ForceMeans;
      ModeFacts(View());
      if now.Some? {
        var i := now.value;
        var t := tasks[i];
        if t.user.Some? && t.user.value.id == id {
          if t.sleep < 0 {
            if t.sleepPending {
              if kstate == Locked {
                kstate := Running;
              }
              ProcessTaskPendingSleep(i);
              UpdateFsmState(c);
            }
          } else if mode.noSleepYield && t.yieldPending {
            Put(i, t.(yieldPending := false));
            UpdateFsmState(c);
          }
        }
      }
      ForceEntry(old(View()), id, c);
    }

    /** The loop of OnStart over the slots. */
    method DeliverEarlySleeps()
      modifies tasks, `strat, `log
      ensures View() == S.StartFrom(old(View()), 0)
    {
      ghost var k := View();
      var i := 0;
      while i < tasks.Length
        invariant 0 <= i <= tasks.Length
        invariant S.StartFrom(View(), i) == S.StartFrom(k, 0)
      {
        if tasks[i].sleepPending {
          Put(i, tasks[i].(sleepPending := false));
          Tell(Slept(i, EffWeight(tasks[i])));
        }
        i := i + 1;
      }
    }

    method OnStart(c: Choice)
      requires Valid() && R.Enabled(View(), R.Start(c))
      modifies this, tasks
      ensures View() == S.OnStart(old(View()), c)
      ensures Valid() && StartMeans(old(View()), View(), c)
    {
      hide Inv, StartMeans, LegalChoice, S.StartFrom;
      ModeFacts(View());
      DeliverEarlySleeps();
      fsm, kstate := Switching, Running;
      if c.next.Some? {
        now := c.next;
      } else if !(mode.dynamic && |strat.all| == 0) {
        fsm := Sleeping;
        now := Some(c.first);
      }
      StartEntry(old(View()), c);
    }

    method OnStop()
      requires Valid() && R.Enabled(View(), R.Stop)
      modifies `fsm, `kstate
      ensures View() == S.OnStop(old(View()))
      ensures Valid() && kstate == Ready && now.None? && (old(strat.all) == {} ==> StopMeans(View()))
    {
      hide Inv, StopMeans;
      if mode.dynamic {
        fsm, kstate := FsmNone, Ready;
      }
      StopEntry(old(View()));
    }

    method OnSuspend(suspend: bool)
      requires Valid() && now.Some?
      modifies this, tasks
      ensures View() == S.OnSuspend(old(View()), suspend)
      ensures Valid() && PauseMeans(old(View()), View(), suspend)
    {
      hide Inv, PauseMeans;
      ModeFacts(View());
      if suspend {
        if kstate == Running || kstate == Locked {
          kstate := Suspended;
        }
      } else if kstate == Suspended {
        kstate := Running;
      }
      if now.Some? && tasks[now.value].sleep >= 0 {
        ScheduleSleep(now.value, YIELD_TICKS);
      }
      PauseEntry(old(View()), suspend);
    }

    // ---- adding and removing tasks ------------------------------------------------------------

    method TryAllocateNewTask(u: User) returns (res: AddResult, slot: Option<nat>)
      ensures (res, slot) == S.TryAllocate(View(), u)
    {
      slot := None;
      var collision := false;
      var i := 0;
      while i < tasks.Length
        invariant 0 <= i <= tasks.Length
        invariant collision <==> exists j :: 0 <= j < i && S.Collides(tasks[j], u)
        invariant slot.Some? ==> slot.value < i && !Busy(tasks[slot.value])
        invariant forall j :: 0 <= j < (if slot.Some? then slot.value else i) ==> Busy(tasks[j])
      {
        if tasks[i].user.Some? {
          collision := collision || tasks[i].user.value.id == u.id || tasks[i].user.value.stack == u.stack;
        } else if slot.None? {
          slot := Some(i);
        }
        i := i + 1;
      }
      FreeIs(tasks[..], 0, slot);
      if collision {
        res, slot := AddDuplicate, None;
      } else if slot.None? {
        res := AddPoolFull;
      } else {
        res := AddOk;
      }
    }

    method AddTask(u: User, hrt: Option<(int, int, int)>) returns (res: AddResult)
      requires Valid()
      modifies tasks, `strat, `log
      ensures (View(), res) == S.AddTask(old(View()), u, hrt)
      ensures Valid() && AddMeans(old(View()), View(), res, u, hrt)
    {
      hide Inv, AddMeans;
      res := AddInvalid;
      var allowed: bool;
      if hrt.Some? {
        allowed := mode.hrt && S.HrtTimingOk(hrt.value) && now.None?;
      } else {
        allowed := !mode.hrt && (mode.dynamic || now.None?);
      }
      if allowed && kstate != Inactive {
        var slot;
        res, slot := TryAllocateNewTask(u);
        if slot.Some? {
          BindSlot(slot.value, u, hrt);
        }
      }
      AddEntry(old(View()), u, hrt);
    }

    method BindSlot(i: nat, u: User, hrt: Option<(int, int, int)>)
      requires i < tasks.Length
      modifies tasks, `strat, `log
      ensures View() == S.BindSlot(old(View()), i, u, hrt)
    {
      ghost var k := View();
      var q := if mode.timeslice then u.quantum else NO_TIME_SLICE;
      Put(i, tasks[i].(user := Some(u), rtWeight := NO_WEIGHT, baseWeight := NO_WEIGHT, ts := Slice(q, q)));
      if hrt.Some? {
        Put(i, tasks[i].(hrt := tasks[i].hrt.(period := hrt.value.0, deadline := hrt.value.1)));
        if hrt.value.2 > 0 {
          ScheduleSleep(i, hrt.value.2);
        }
      }
      assert View().tasks == k.tasks[i := tasks[i]];
      Tell(Added(i, EffWeight(tasks[i])));
    }

    method RemoveTask(u: nat)
      requires Valid() && now.None?
      modifies tasks, `strat, `log
      ensures View() == S.RemoveTask(old(View()), u)
      ensures Valid() && RemoveMeans(old(View()), View(), u)
    {
      hide Inv, RemoveMeans;
      var s := FindTask(u);
      if mode.dynamic && now.None? && s.Some? {
        RemoveSlot(s.value);
      }
      RemoveEntry(old(View()), u);
    }

    method ScheduleRemoval(i: nat)
      requires i < tasks.Length
      modifies tasks, `waits, `strat, `log
      ensures View() == S.ScheduleRemoval(old(View()), i)
    {
      EndWait(i, Cancelled);
      ghost var k := View();
      ScheduleSleep(i, WAIT_INFINITE);
      if mode.hrt {
        Put(i, tasks[i].(hrt := tasks[i].hrt.(done := true)));
      }
      Put(i, tasks[i].(removePending := true));
      assert View().tasks == k.tasks[i := tasks[i]];
      if now != Some(i) && tasks[i].sleepPending {
        ProcessTaskPendingSleep(i);
      }
    }

    method ScheduleTaskRemoval(u: nat)
      requires Valid()
      modifies tasks, `waits, `strat, `log
      ensures View() == S.ScheduleTaskRemoval(old(View()), u)
      ensures Valid()
      ensures if mode.dynamic && now.Some? && S.Find(old(View()), u).Some?
        then ExpelMeans(old(View()), View(), S.Find(old(View()), u).value) else View() == old(View())
    {
      hide Inv, ExpelMeans;
      var s := FindTask(u);
      if mode.dynamic && now.Some? && s.Some? {
        ScheduleRemoval(s.value);
      }
      if mode.dynamic && now.Some? && s.Some? { RemovalEntry(old(View()), s.value); }
    }

    // ---- suspension, cancellation, lock -------------------------------------------------------

    method SuspendTask(u: nat) returns (res: SuspendResult)
      requires Valid()
      modifies tasks, `strat, `log
      ensures (View(), res) == S.SuspendTask(old(View()), u)
      ensures Valid() && SuspendMeans(old(View()), View(), res, u)
    {
      hide Inv, SuspendMeans;
      res := SuspendFail;
      var s := FindTask(u);
      if s.Some? && !tasks[s.value].removePending {
        var i := s.value;
        if tasks[i].suspended || tasks[i].suspendPending {
          res := SuspendAlready;
        } else if tasks[i].sleep < 0 {
          Put(i, tasks[i].(suspendPending := true));
          res := SuspendDeferred;
        } else if !(kstate == Locked && now == Some(i)) {
          ghost var k := View();
          ScheduleSleep(i, WAIT_INFINITE);
          Put(i, tasks[i].(suspended := true));
          assert View().tasks == k.tasks[i := tasks[i]];
          res := SuspendDone;
          if now != Some(i) && now.Some? && tasks[i].sleepPending {
            ProcessTaskPendingSleep(i);
          }
        }
      }
      SuspendEntry(old(View()), u);
    }

    method ResumeTask(u: nat) returns (res: ResumeResult)
      requires Valid()
      modifies tasks
      ensures (View(), res) == S.ResumeTask(old(View()), u)
      ensures Valid() && ResumeMeans(old(View()), View(), res, u)
    {
      hide Inv, ResumeMeans;
      res := ResumeFail;
      var s := FindTask(u);
      if s.Some? && !tasks[s.value].removePending {
        var i := s.value;
        if tasks[i].suspended {
          ghost var k := View();
          Put(i, tasks[i].(suspended := false));
          if tasks[i].sleep < 0 {
            Wake(i);
          }
          assert View().tasks == k.tasks[i := tasks[i]];
          res := ResumeDone;
        } else if tasks[i].suspendPending {
          Put(i, tasks[i].(suspendPending := false));
          res := ResumeLifted;
        } else {
          res := ResumeNotSuspended;
        }
      }
      ResumeEntry(old(View()), u);
    }

    method CancelTaskWait(u: nat)
      requires Valid()
      modifies tasks, `waits, `strat, `log
      ensures View() == S.CancelTaskWait(old(View()), u)
      ensures Valid() && CancelMeans(old(View()), View(), u)
    {
      hide Inv, CancelMeans;
      var s := FindTask(u);
      if s.Some? {
        var i := s.value;
        if mode.sync && tasks[i].wait.sync.Some? {
          EndWaitAndWake(i, Cancelled);
        } else if tasks[i].sleep < 0 && !tasks[i].suspended {
          Wake(i);
        }
      }
      CancelEntry(old(View()), u);
    }

    method SetSchedulerLock(lock: bool, isr: bool) returns (res: LockResult)
      requires Valid() && R.Enabled(View(), R.SetLock(lock, isr))
      modifies `kstate
      ensures (View(), res) == S.SetSchedulerLock(old(View()), lock, isr)
      ensures Valid() && LockMeans(old(View()), View(), res, lock, isr)
    {
      hide Inv, LockMeans;
      res := LockFail;
      if !mode.hrt {
        if isr {
          res := LockFailIsr;
        } else if kstate == Running {
          res := LockWasUnlocked;
          kstate := if lock then Locked else Running;
        } else if kstate == Locked {
          res := LockWasLocked;
          kstate := if lock then Locked else Running;
        }
      }
      LockEntry(old(View()), lock, isr);
    }

    // ---- calls of the running task ------------------------------------------------------------

    method OnTaskSleep(n: int) returns (ok: bool)
      requires now.Some? && now.value < tasks.Length
      modifies tasks
      ensures (View(), ok) == S.OnTaskSleep(old(View()), n)
    {
      ghost var k := View();
      var i := now.value;
      if mode.hrt {
        Put(i, tasks[i].(hrt := tasks[i].hrt.(done := true)));
      }
      ok := n > 0;
      if ok {
        ScheduleSleep(i, n);
      }
      assert View().tasks == k.tasks[i := tasks[i]];
    }

    /** KernelService::Sleep. */
    method Sleep(n: int) returns (ok: bool)
      requires Valid() && R.Active(View()) && 0 <= n <= WAIT_INFINITE
      modifies tasks
      ensures (View(), ok) == S.Sleep(old(View()), n)
      ensures Valid() && SleepMeans(old(View()), View(), ok, n)
    {
      hide Inv, SleepMeans;
      ok := false;
      if !mode.hrt && kstate != Locked {
        ok := OnTaskSleep(n);
      }
      SleepEntry(old(View()), n);
    }

    /** KernelService::ExitTask. */
    method ExitTask()
      requires Valid() && R.Active(View())
      modifies tasks, `waits, `strat, `log
      ensures View() == S.ExitTask(old(View()))
      ensures Valid() && if mode.dynamic then ExpelMeans(old(View()), View(), now.value) else View() == old(View())
    {
      hide Inv, ExpelMeans;
      if mode.dynamic {
        ScheduleRemoval(now.value);
        RemovalEntry(old(View()), now.value);
      }
    }

    method SleepUntil(timestamp: int) returns (ok: bool)
      requires Valid() && R.Active(View())
      modifies tasks
      ensures (View(), ok) == S.SleepUntil(old(View()), timestamp)
      ensures Valid() && UntilMeans(old(View()), View(), ok, timestamp)
    {
      hide Inv, UntilMeans;
      ok := false;
      if !mode.hrt && kstate != Locked {
        var delta := timestamp - ticks;
        if delta > 0 {
          ScheduleSleep(now.value, Min(delta, WAIT_INFINITE));
          ok := true;
        }
      }
      UntilEntry(old(View()), timestamp);
    }

    method SwitchToNext(handled: bool)
      requires Valid() && R.Active(View())
      modifies tasks, `strat, `log
      ensures View() == S.SwitchToNext(old(View()), handled)
      ensures Valid() && YieldMeans(old(View()), View(), handled)
    {
      hide Inv, YieldMeans;
      if kstate != Locked {
        var i := now.value;
        if mode.noSleepYield && !mode.hrt && tasks[i].sleep >= 0 {
          Tell(Yielded(i));
        }
        if mode.noSleepYield && !mode.hrt && tasks[i].sleep >= 0 && handled {
          var t := tasks[i].(yieldPending := true);
          Put(i, t.(ts := t.ts.(left := t.ts.quantum)));
        } else {
          var _ := OnTaskSleep(YIELD_TICKS);
        }
      }
      YieldEntry(old(View()), handled);
    }

    method WaitOn(s: nat, timeout: int) returns (ok: bool)
      requires Valid() && R.Active(View()) && timeout != 0 && timeout <= WAIT_INFINITE && !mode.hrt
      modifies tasks, `waits, `syncs, `strat, `log
      ensures (View(), ok) == S.WaitOn(old(View()), s, timeout)
      ensures Valid() && WaitMeans(old(View()), View(), ok, s, timeout)
    {
      hide Inv, WaitMeans;
      ok := mode.sync && kstate != Locked;
      if ok {
        var i := now.value;
        Put(i, tasks[i].(wait := Wait(Some(s), timeout, Waiting)));
        waits := waits[s := (if s in waits then waits[s] else []) + [i]];
        if s !in syncs {
          syncs := syncs + [s];
        }
        Tell(WaitBegun(i));
        ScheduleSleep(i, WAIT_INFINITE);
      }
      WaitEntry(old(View()), s, timeout);
    }

    method FinishWait() returns (res: WaitResult)
      requires Valid() && R.Active(View())
      modifies tasks
      ensures (View(), res) == S.FinishWait(old(View()))
      ensures Valid() && FinishMeans(old(View()), View(), res)
    {
      hide Inv, FinishMeans;
      var t := tasks[now.value];
      match t.wait.state {
        case TimedOut => res := WaitTimeout;
        case Cancelled => res := WaitCanceled;
        case Signaled => res := WaitSignal;
        case Idle => res := WaitFail;
        case Waiting => res := WaitFail;
      }
      Put(now.value, t.(wait := t.wait.(state := Idle)));
      FinishEntry(old(View()));
    }

    /** ISyncObject::WakeAll: wakes the first waiter until the list is empty. */
    method WakeAll(s: nat)
      requires S.Shaped(View()) && WaitsInv(View())
      modifies tasks, `waits, `strat, `log
      ensures View() == S.WakeEach(old(View()), WaitList(old(View()), s))
    {
      hide WaitsInv;
      ghost var k := View();
      while s in waits && waits[s] != []
        invariant S.Shaped(View()) && WaitsInv(View())
        invariant S.WakeEach(View(), WaitList(View(), s)) == S.WakeEach(k, WaitList(k, s))
        decreases |WaitList(View(), s)|
      {
        ghost var k1 := View();
        var i := waits[s][0];
        WakeRound(k1, s);
        EndWaitAndWake(i, Signaled);
      }
    }

    /** KernelService::Wake. */
    method Signal(s: nat, everyone: bool)
      requires Valid()
      modifies tasks, `waits, `strat, `log
      ensures S.Shaped(old(View())) && View() == S.Signal(old(View()), s, everyone)
      ensures Valid() && WakeMeans(old(View()), View(), s, everyone)
    {
      ghost var k := View();
      assert S.Shaped(k) && WaitsInv(k);
      hide Inv, WakeMeans, WaitsInv;
      if mode.sync {
        if everyone {
          WakeAll(s);
        } else if s in waits && waits[s] != [] {
          assert waits[s][0] in waits[s] && S.InRange(k.waits[s], |k.tasks|);
          EndWaitAndWake(waits[s][0], Signaled);
        }
      }
      WakeEntry(k, s, everyone);
    }

    // ---- weights and time slices --------------------------------------------------------------

    method InheritWeight(u: nat, w: int)
      requires Valid()
      modifies tasks, `strat, `log
      ensures View() == S.InheritWeight(old(View()), u, w)
      ensures Valid() && InheritMeans(old(View()), View(), u, w)
    {
      hide Inv, InheritMeans;
      if mode.inherit && w != NO_WEIGHT {
        var s := FindTask(u);
        if s.Some? {
          var prev := EffWeight(tasks[s.value]);
          if prev < w {
            Put(s.value, tasks[s.value].(rtWeight := w));
            Tell(Reweighed(s.value, prev, w));
          }
        }
      }
      InheritEntry(old(View()), u, w);
    }

    method SetWeight(u: nat, w: nat) returns (prevBase: int)
      requires Valid()
      modifies tasks, `strat, `log
      ensures (View(), prevBase) == S.SetWeight(old(View()), u, w)
      ensures Valid() && WeightMeans(old(View()), View(), prevBase, u, w)
    {
      hide Inv, WeightMeans;
      prevBase := NO_WEIGHT;
      var s := FindTask(u);
      if mode.inherit && s.Some? {
        var t := tasks[s.value];
        var prev := EffWeight(t);
        prevBase := BaseWeight(t);
        t := t.(baseWeight := w);
        if t.rtWeight != NO_WEIGHT && t.rtWeight <= w {
          t := t.(rtWeight := NO_WEIGHT);
        }
        Put(s.value, t);
        Tell(Reweighed(s.value, prev, EffWeight(t)));
      }
      WeightEntry(old(View()), u, w);
    }

    /** ISyncObject::FindWeightHigherThan over the waiters of `s`. */
    method FindWeightHigherThan(s: nat, comp: int) returns (w: int)
      requires S.Shaped(View())
      ensures var m := S.MaxWeight(View().tasks, WaitList(View(), s)); w == if m > comp then m else NO_WEIGHT
    {
      var ws := if s in waits then waits[s] else [];
      var best := NO_WEIGHT;
      var j := 0;
      assert ws[0..] == ws;
      while j < |ws|
        invariant 0 <= j <= |ws| && S.InRange(ws, tasks.Length) && S.InRange(ws[j..], tasks.Length) && best >= NO_WEIGHT
        invariant Max(best, S.MaxWeight(tasks[..], ws[j..])) == S.MaxWeight(tasks[..], ws)
      {
        assert ws[j] in ws && ws[j..][1..] == ws[j + 1..];
        assert forall x :: x in ws[j + 1..] ==> x in ws;
        var u := tasks[ws[j]].user;
        var weight := if u.Some? then u.value.weight else NO_WEIGHT;
        if weight > best {
          best := weight;
        }
        j := j + 1;
      }
      assert ws[j..] == [];
      w := if best > comp then best else NO_WEIGHT;
    }

    method RestoreWeight(u: nat, sobj: Option<nat>)
      requires Valid()
      modifies tasks, `strat, `log
      ensures View() == S.RestoreWeight(old(View()), u, sobj)
      ensures Valid() && S.Shaped(old(View())) && RestoreMeans(old(View()), View(), u, sobj)
    {
      hide Inv, RestoreMeans;
      ModeFacts(View());
      var s := FindTask(u);
      if mode.inherit && s.Some? {
        var prev := EffWeight(tasks[s.value]);
        var boost := NO_WEIGHT;
        if sobj.Some? {
          boost := FindWeightHigherThan(sobj.value, prev);
        }
        Put(s.value, tasks[s.value].(rtWeight := boost));
        Tell(Reweighed(s.value, prev, EffWeight(tasks[s.value])));
      }
      RestoreEntry(old(View()), u, sobj);
    }

    method SetTimeSlice(u: nat, q: nat) returns (prev: int)
      requires Valid()
      modifies tasks
      ensures (View(), prev) == S.SetTimeSlice(old(View()), u, q)
      ensures Valid() && QuantumMeans(old(View()), View(), prev, u, q)
    {
      hide Inv, QuantumMeans;
      prev := NO_TIME_SLICE;
      var s := FindTask(u);
      if mode.timeslice && s.Some? {
        prev := tasks[s.value].ts.quantum;
        Put(s.value, tasks[s.value].(ts := Slice(q, q)));
      }
      QuantumEntry(old(View()), u, q);
    }
  }

  lemma {:induction false} FreeIs(ts: seq<Task>, i: nat, slot: Option<nat>)
    requires i <= |ts| && (slot.Some? ==> i <= slot.value < |ts| && !Busy(ts[slot.value]))
    requires forall j :: i <= j < (if slot.Some? then slot.value else |ts|) ==> Busy(ts[j])
    ensures S.FreeFrom(ts, i) == slot
    decreases |ts| - i
  {
    if i < |ts| && Busy(ts[i]) { FreeIs(ts, i + 1, slot); }
  }

  lemma NoWaiters(k: K, e: int)
    ensures S.TickWaiters(k, [], e) == k
  {
  }

  lemma WaitersStep(k: K, ws: seq<nat>, j: nat, e: int)
    requires j < |ws| && S.InRange(ws[j..], |k.tasks|)
    ensures ws[j] < |k.tasks| && S.InRange(ws[j + 1..], |k.tasks|)
    ensures S.TickWaiters(k, ws[j..], e) == S.TickWaiters(S.TickWaiter(k, ws[j], e), ws[j + 1..], e)
  {
    hide S.TickWaiter;
    var rest, tail := ws[j..], ws[j + 1..];
    assert rest == [ws[j]] + tail && rest[1..] == tail;
    assert rest[0] in rest;
    forall x | x in tail ensures x < |k.tasks| { assert x in rest; }
  }

  /** Waking the slot after it was unlinked does not touch the lists. */
  lemma WokenLinks(k: K, i: nat)
    requires WaitsInv(k) && i < |k.tasks|
    ensures WaitsInv(S.SetTask(k, i, S.WakeTask(k.tasks[i].(wait := k.tasks[i].wait.(time := 0)))))
  {
    var r := S.SetTask(k, i, S.WakeTask(k.tasks[i].(wait := k.tasks[i].wait.(time := 0))));
    forall s: nat ensures WaitList(r, s) == WaitList(k, s) {}
  }

  /** Waking the first waiter takes it off the list and leaves the rest to the following rounds. */
  lemma WakeRound(k: K, s: nat)
    requires S.Shaped(k) && WaitsInv(k) && WaitList(k, s) != []
    ensures var i := WaitList(k, s)[0];
      i < |k.tasks| &&
      var r := S.EndWaitAndWake(k, i, Signaled);
      S.Shaped(r) && WaitsInv(r) && WaitList(r, s) == WaitList(k, s)[1..] &&
      S.WakeEach(r, WaitList(r, s)) == S.WakeEach(k, WaitList(k, s))
  {
    var i := WaitList(k, s)[0];
    assert i in WaitList(k, s) && S.InRange(WaitList(k, s), |k.tasks|);
    assert k.tasks[i].wait.sync == Some(s);
    UnlinkWaits(k, i, Signaled);
    WokenLinks(S.EndWait(k, i, Signaled), i);
    assert WaitList(S.EndWaitAndWake(k, i, Signaled), s) == WaitList(k, s)[1..];
  }
}
