/** Waits and suspensions over whole runs: parked tasks stay parked, a wait returns what ended it, and a timeout
    comes exactly when it is due. */
module KernelWaits {
  import opened KernelTypes
  import opened KernelSpec
  import opened KernelInv
  import opened KernelSync
  import opened KernelRuns
  import opened KernelCalls
  import opened KernelTheorems
  import opened KernelTick
  import opened KernelSched
  import opened KernelFrame
  import opened KernelTiming

  // ---- suspension -----------------------------------------------------------------------------

  /** No event of the run resumes or removes the task `id`. */
  predicate LeavesParked(evs: seq<Event>, id: nat) {
    forall j :: 0 <= j < |evs| && (evs[j].Resume? || evs[j].Expel? || evs[j].Remove?) ==> evs[j].id != id
  }

  /** A suspended task, and one whose suspension is deferred until its sleep or wait is over, stays bound,
      asleep and suspended or deferred through every run that does not resume or remove it; it is runnable
      only while its own sleep is still to be delivered, never again once it was taken off, and the result of
      a wait that is over stays as it is. */
  lemma {:induction false} ParkedStays(k: K, evs: seq<Event>, r: K, i: nat)
    requires Inv(k) && !k.mode.hrt && Leads(k, evs, r) && i < |k.tasks| && Parked(k.tasks[i])
    requires LeavesParked(evs, k.tasks[i].user.value.id)
    ensures i < |r.tasks| && Parked(r.tasks[i]) && r.tasks[i].user == k.tasks[i].user
    ensures i in r.strat.filed ==> r.tasks[i].sleepPending
    ensures !k.tasks[i].sleepPending ==> !r.tasks[i].sleepPending && i !in r.strat.filed
    ensures Over(k.tasks[i].wait.state) ==> r.tasks[i].wait.state == k.tasks[i].wait.state
    decreases |evs|
  {
    hide Core, Next, Enabled, Parked;
    if evs == [] {
      RunnableSlot(k, i);
    } else {
      CoreShaped(k);
      var k1 := Next(k, evs[0]);
      ParkedStep(k, evs[0], i);
      if Over(k.tasks[i].wait.state) { OverStays(k, evs[0], i); }
      NextKeeps(k, evs[0]);
      ClockSteps(k, evs[0]);
      assert forall j :: 0 <= j < |evs[1..]| ==> evs[1..][j] == evs[j + 1];
      ParkedStays(k1, evs[1..], r, i);
    }
  }

  lemma RunnableSlot(k: K, i: nat)
    requires Inv(k) && i < |k.tasks| && Parked(k.tasks[i])
    ensures i in k.strat.filed ==> k.tasks[i].sleepPending
  {
    assert SlotInv(k, i);
  }

  /** A parked task takes no result and begins no wait, for it does not run. */
  lemma OverStays(k: K, ev: Event, i: nat)
    requires Inv(k) && Enabled(k, ev) && i < |k.tasks| && Parked(k.tasks[i]) && Over(k.tasks[i].wait.state)
    ensures i < |Next(k, ev).tasks| && Next(k, ev).tasks[i].wait.state == k.tasks[i].wait.state
  {
    assert SlotInv(k, i);
    hide Core, Next;
    CoreShaped(k);
    WaitResultStays(k, ev, i);
  }

  // ---- results --------------------------------------------------------------------------------

  /** Note `n` begins or ends a wait of slot `i`. */
  predicate WaitNote(n: Note, i: nat) { n.i == i && (n.WaitBegun? || n.WaitEnded?) }

  /** A wait that is under way was begun by the last note about it. */
  lemma {:induction false} BegunAt(log: seq<Note>, i: nat) returns (a: nat)
    requires Replay(log).Some? && i in Replay(log).value.waiting
    ensures a < |log| && log[a] == WaitBegun(i) && forall c :: a < c < |log| ==> !WaitNote(log[c], i)
    decreases |log|
  {
    var m := |log| - 1;
    if log[m] == WaitBegun(i) {
      a := m;
    } else {
      a := BegunAt(log[..m], i);
      assert log[..m][a] == log[a];
      assert forall c :: a < c < m ==> log[..m][c] == log[c];
    }
  }

  /** The last two notes about the waits of slot `i` are its begin at `a` and its end at `b`. */
  ghost predicate LastWait(log: seq<Note>, i: nat, a: nat, b: nat, how: WaitState) {
    && a < b < |log| && log[a] == WaitBegun(i) && log[b] == WaitEnded(i, how)
    && forall c :: a < c < |log| && c != b ==> !WaitNote(log[c], i)
  }

  lemma {:induction false} EndedAt(log: seq<Note>, i: nat) returns (a: nat, b: nat)
    requires Replay(log).Some? && i in Replay(log).value.ended
    ensures LastWait(log, i, a, b, Replay(log).value.ended[i])
    decreases |log|
  {
    var m := |log| - 1;
    if log[m].WaitEnded? && log[m].i == i {
      b := m;
      a := BegunAt(log[..m], i);
      assert forall c :: 0 <= c < m ==> log[..m][c] == log[c];
    } else {
      a, b := EndedAt(log[..m], i);
      assert forall c :: 0 <= c < m ==> log[..m][c] == log[c];
    }
  }

  function ResultOf(s: WaitState): WaitResult {
    match s
    case TimedOut => WaitTimeout
    case Cancelled => WaitCanceled
    case Signaled => WaitSignal
    case _ => WaitFail
  }

  /** In every run, the value with which a wait returns is that of the one end since its begin: a signal, a
      timeout or a cancellation; there is no value exactly when no wait is over. */
  lemma WaitReturnsItsEnd(mode: Mode, n: nat, evs: seq<Event>, r: K)
    requires ModeOk(mode) && n > 0 && Leads(NewKernel(mode, n), evs, r) && Active(r)
    ensures var i, res := r.now.value, FinishWait(r).1;
      && (res == WaitFail <==> r.tasks[i].wait.state == Idle)
      && (res != WaitFail ==> exists a: nat, b: nat, how ::
            LastWait(r.log, i, a, b, how) && how in {Signaled, TimedOut, Cancelled} && res == ResultOf(how))
  {
    hide Leads, Inv;
    RunsKeep(mode, n, evs, r);
    var i := r.now.value;
    WaitFacts(r, i);
    if Over(r.tasks[i].wait.state) {
      var a, b := EndedAt(r.log, i);
      assert LastWait(r.log, i, a, b, r.tasks[i].wait.state);
    }
  }

  lemma WaitFacts(r: K, i: nat)
    requires Inv(r) && i < |r.tasks| && !Asleep(r.tasks[i])
    ensures var s := r.tasks[i].wait.state;
      && Replay(r.log) == Some(r.strat) && (s == Idle || Over(s))
      && (Over(s) ==> i in r.strat.ended && r.strat.ended[i] == s)
  {
    assert SlotInv(r, i);
  }

  // ---- timeouts -------------------------------------------------------------------------------

  lemma WaitSlot(m: Mode, t: Task)
    requires !m.hrt && IsWaiting(t) && Infinite(t) && t.wait.time < WAIT_INFINITE
    requires !t.removePending && !t.suspendPending
    ensures var u := SlotTask(m, TickWait(t, 1), true, 1);
      if t.wait.time <= 1 then !Asleep(u) && u.wait == Wait(None, 0, TimedOut)
      else Infinite(u) && u.wait == t.wait.(time := t.wait.time - 1)
    ensures var u := SlotTask(m, TickWait(t, 1), true, 1);
      u.user == t.user && !u.removePending && !u.suspendPending
  {
  }

  /** One tick for a waiting task. */
  lemma TickOfWaiter(k: K, c: Choice, i: nat)
    requires Inv(k) && Enabled(k, TickBy(1, c)) && !k.mode.hrt && i < |k.tasks| && !k.tasks[i].removePending
    ensures var t := Tick(k, 1, c).tasks[i]; t == SlotTask(k.mode, TickWait(k.tasks[i], 1), true, 1).(ts := t.ts)
    ensures |Tick(k, 1, c).tasks| == |k.tasks|
  {
    hide Core, TickBody, SlotTask, TickWait;
    CoreShaped(k);
    TickTask(k, 1, i);
    TickTasks(k, 1, c);
  }

  lemma WaitingFacts(k: K, i: nat)
    requires Inv(k) && i < |k.tasks| && IsWaiting(k.tasks[i])
    ensures var t := k.tasks[i]; Infinite(t) && t.wait.state == Waiting && !t.removePending
  {
    assert SlotInv(k, i);
  }

  /** A waiter with `m` ticks to go waits through exactly `m` - 1 undisturbed ticks; one whose time is over
      already does not survive a tick. */
  lemma {:induction false} WaitTiming(k: K, evs: seq<Event>, i: nat, r: K)
    requires Inv(k) && !k.mode.hrt && i < |k.tasks| && Calm(k, evs, i, r) && Busy(k.tasks[i])
    requires IsWaiting(k.tasks[i]) && k.tasks[i].wait.time < WAIT_INFINITE && !k.tasks[i].suspendPending
    ensures i < |r.tasks| && (Asleep(r.tasks[i]) <==> TicksIn(evs) < Max(k.tasks[i].wait.time, 1))
    ensures r.tasks[i].wait.state == if TicksIn(evs) < Max(k.tasks[i].wait.time, 1) then Waiting else TimedOut
    decreases |evs|
  {
    hide Core, Next, Enabled, SlotTask, TickWait;
    WaitingFacts(k, i);
    if evs != [] {
      CoreShaped(k);
      NextKeeps(k, evs[0]);
      ClockSteps(k, evs[0]);
      var k1 := Next(k, evs[0]);
      if evs[0].TickBy? {
        TickOfWaiter(k, evs[0].c, i);
        NextTick(k, evs[0]);
        WaitSlot(k.mode, k.tasks[i]);
        if k.tasks[i].wait.time <= 1 { UpStays(k1, evs[1..], i, r); } else { WaitTiming(k1, evs[1..], i, r); }
      } else {
        CalmStep(k, evs[0], i);
        WaitTiming(k1, evs[1..], i, r);
      }
    }
  }

  /** A wait with a timeout of `n` that is not disturbed ends as timed out after exactly `n` single ticks,
      however the task was taken off, and the task is awake in that tick; a negative timeout ends with the
      first tick. */
  lemma WaitLasts(k: K, s: nat, n: int, evs: seq<Event>, r: K)
    requires Inv(k) && Active(k) && k.mode.sync && !k.mode.hrt && k.kstate != Locked && n != 0 && n < WAIT_INFINITE
    requires Calm(WaitOn(k, s, n).0, evs, k.now.value, r)
    ensures var i := k.now.value;
      && i < |r.tasks| && (Asleep(r.tasks[i]) <==> TicksIn(evs) < Max(n, 1))
      && r.tasks[i].wait.state == if TicksIn(evs) < Max(n, 1) then Waiting else TimedOut
  {
    hide Core, Calm;
    ActiveFacts(k);
    BlockKeeps(k, s, n);
    WaitTiming(WaitOn(k, s, n).0, evs, k.now.value, r);
  }

  lemma EndlessSlot(m: Mode, t: Task)
    requires IsWaiting(t) && Infinite(t) && t.wait.time == WAIT_INFINITE && t.wait.state == Waiting && !t.removePending
    ensures var u := SlotTask(m, TickWait(t, 1), true, 1); Infinite(u) && u.wait == t.wait && u.user == t.user
  {
  }

  /** A wait without a timeout does not end in any undisturbed run, however many ticks pass. */
  lemma {:induction false} EndlessWait(k: K, evs: seq<Event>, i: nat, r: K)
    requires Inv(k) && !k.mode.hrt && i < |k.tasks| && Calm(k, evs, i, r) && Busy(k.tasks[i])
    requires IsWaiting(k.tasks[i]) && k.tasks[i].wait.time == WAIT_INFINITE
    ensures i < |r.tasks| && r.tasks[i].wait == k.tasks[i].wait && Asleep(r.tasks[i])
    decreases |evs|
  {
    hide Core, Next, Enabled, SlotTask, TickWait;
    WaitingFacts(k, i);
    if evs != [] {
      CoreShaped(k);
      NextKeeps(k, evs[0]);
      ClockSteps(k, evs[0]);
      if evs[0].TickBy? { TickOfWaiter(k, evs[0].c, i); NextTick(k, evs[0]); EndlessSlot(k.mode, k.tasks[i]); }
      else { CalmStep(k, evs[0], i); }
      EndlessWait(Next(k, evs[0]), evs[1..], i, r);
    }
  }

  // ---- deferred suspensions -------------------------------------------------------------------

  /** The suspension is in force and the strategy knows it. */
  predicate Committed(t: Task) {
    Parked(t) && t.suspended && !t.suspendPending && Infinite(t) && !t.sleepPending && !IsWaiting(t)
  }

  /** The suspension is still deferred: the task sleeps for `left` ticks, or waits for as many. */
  predicate Deferred(t: Task, left: int) {
    && Parked(t) && !t.suspended && t.suspendPending
    && if IsWaiting(t) then Infinite(t) && Max(t.wait.time, 1) == left else t.sleep == -left
  }

  lemma CommittedSlot(m: Mode, t: Task)
    requires Committed(t)
    ensures Committed(SlotTask(m, t, true, 1)) && SlotTask(m, t, true, 1).wait == t.wait
  {
  }

  lemma {:induction false} CommittedStays(k: K, evs: seq<Event>, i: nat, r: K)
    requires Inv(k) && !k.mode.hrt && i < |k.tasks| && Calm(k, evs, i, r) && Committed(k.tasks[i])
    ensures i < |r.tasks| && Committed(r.tasks[i]) && r.tasks[i].wait == k.tasks[i].wait && i !in r.strat.filed
    decreases |evs|
  {
    hide Core, Next, Enabled, SlotTask;
    if evs == [] {
      RunnableSlot(k, i);
    } else {
      CoreShaped(k);
      NextKeeps(k, evs[0]);
      ClockSteps(k, evs[0]);
      if evs[0].TickBy? { TickOf(k, evs[0].c, i); CommittedSlot(k.mode, k.tasks[i]); NextTick(k, evs[0]); }
      else { CalmStep(k, evs[0], i); }
      CommittedStays(Next(k, evs[0]), evs[1..], i, r);
    }
  }

  /** One tick of a sleeper that was taken off, or is taken off with a wake pending. */
  lemma DeferredSlot(m: Mode, t: Task)
    requires !m.hrt && Deferred(t, -t.sleep) && !IsWaiting(t) && !Infinite(t)
    ensures var u := SlotTask(m, t, true, 1);
      && !u.sleepPending && u.wait == t.wait
      && if t.sleepPending && !t.wakePending then Deferred(u, -t.sleep)
         else if t.sleep == -1 then Committed(u) else Deferred(u, -t.sleep - 1)
  {
  }

  /** One tick of a waiter. */
  lemma DeferredWaiter(m: Mode, t: Task)
    requires !m.hrt && Deferred(t, Max(t.wait.time, 1)) && IsWaiting(t) && t.wait.state == Waiting
    requires t.wait.time < WAIT_INFINITE
    ensures var u := SlotTask(m, TickWait(t, 1), true, 1);
      if t.wait.time <= 1 then Committed(u) && u.wait == Wait(None, 0, TimedOut)
      else Deferred(u, t.wait.time - 1) && u.wait == t.wait.(time := t.wait.time - 1)
  {
  }

  /** The deferred suspension of slot `i` after `n` of the `due` ticks: deferred still, or in force. */
  predicate DeferredFor(r: K, i: nat, n: nat, due: int) {
    i < |r.tasks| && if n < due then Deferred(r.tasks[i], due - n) else Committed(r.tasks[i]) && i !in r.strat.filed
  }

  /** A sleeper that was taken off. */
  lemma {:induction false} OffDeferred(k: K, evs: seq<Event>, i: nat, r: K)
    requires Inv(k) && !k.mode.hrt && i < |k.tasks| && Calm(k, evs, i, r) && Deferred(k.tasks[i], -k.tasks[i].sleep)
    requires !IsWaiting(k.tasks[i]) && !Infinite(k.tasks[i]) && !k.tasks[i].sleepPending
    ensures DeferredFor(r, i, TicksIn(evs), -k.tasks[i].sleep)
    decreases |evs|
  {
    hide Core, Next, Enabled, SlotTask;
    if evs != [] {
      CoreShaped(k);
      NextKeeps(k, evs[0]);
      ClockSteps(k, evs[0]);
      var k1 := Next(k, evs[0]);
      if evs[0].TickBy? {
        TickOf(k, evs[0].c, i);
        NextTick(k, evs[0]);
        DeferredSlot(k.mode, k.tasks[i]);
        NotInfinite(k, i);
        if Committed(k1.tasks[i]) { CommittedStays(k1, evs[1..], i, r); } else { OffDeferred(k1, evs[1..], i, r); }
      } else {
        CalmStep(k, evs[0], i);
        OffDeferred(k1, evs[1..], i, r);
      }
    }
  }

  /** The ticks after which the sleep of slot `i` ends: the one that takes it off does not count, unless a
      wake raced in. */
  ghost function Due(k: K, evs: seq<Event>, i: nat): int
    requires i < |k.tasks|
  {
    -k.tasks[i].sleep + if k.tasks[i].sleepPending && Late(k, evs, i) then 1 else 0
  }

  lemma {:induction false} SleepDeferred(k: K, evs: seq<Event>, i: nat, r: K)
    requires Inv(k) && !k.mode.hrt && i < |k.tasks| && Calm(k, evs, i, r) && Deferred(k.tasks[i], -k.tasks[i].sleep)
    requires !IsWaiting(k.tasks[i]) && !Infinite(k.tasks[i])
    ensures DeferredFor(r, i, TicksIn(evs), Due(k, evs, i))
    decreases |evs|
  {
    hide Core, Next, Enabled, SlotTask, Acts;
    if !k.tasks[i].sleepPending {
      OffDeferred(k, evs, i, r);
    } else if evs != [] {
      CoreShaped(k);
      NextKeeps(k, evs[0]);
      ClockSteps(k, evs[0]);
      var k1 := Next(k, evs[0]);
      if evs[0].TickBy? {
        TickOf(k, evs[0].c, i);
        NextTick(k, evs[0]);
        DeferredSlot(k.mode, k.tasks[i]);
        NotInfinite(k, i);
        if Committed(k1.tasks[i]) { CommittedStays(k1, evs[1..], i, r); } else { OffDeferred(k1, evs[1..], i, r); }
      } else {
        CalmStep(k, evs[0], i);
        PendingIsNow(k, evs[0], i);
        SleepDeferred(k1, evs[1..], i, r);
      }
    }
  }

  /** A forced switch that acts finds the task whose sleep is pending. */
  lemma PendingIsNow(k: K, ev: Event, i: nat)
    requires Inv(k) && Enabled(k, ev) && i < |k.tasks| && k.tasks[i].sleepPending
    ensures Asleep(k.tasks[i]) && (ev.Force? ==> k.now == Some(i))
  {
    assert SlotInv(k, i);
  }

  lemma {:induction false} WaitDeferred(k: K, evs: seq<Event>, i: nat, r: K)
    requires Inv(k) && !k.mode.hrt && i < |k.tasks| && Calm(k, evs, i, r)
    requires Deferred(k.tasks[i], Max(k.tasks[i].wait.time, 1))
    requires IsWaiting(k.tasks[i]) && k.tasks[i].wait.time < WAIT_INFINITE
    ensures DeferredFor(r, i, TicksIn(evs), Max(k.tasks[i].wait.time, 1))
    ensures r.tasks[i].wait.state == if TicksIn(evs) < Max(k.tasks[i].wait.time, 1) then Waiting else TimedOut
    decreases |evs|
  {
    hide Core, Next, Enabled, SlotTask, TickWait;
    WaitingFacts(k, i);
    if evs != [] {
      CoreShaped(k);
      NextKeeps(k, evs[0]);
      ClockSteps(k, evs[0]);
      var k1 := Next(k, evs[0]);
      if evs[0].TickBy? {
        TickOfWaiter(k, evs[0].c, i);
        NextTick(k, evs[0]);
        DeferredWaiter(k.mode, k.tasks[i]);
        if k.tasks[i].wait.time <= 1 { CommittedStays(k1, evs[1..], i, r); } else { WaitDeferred(k1, evs[1..], i, r); }
      } else {
        CalmStep(k, evs[0], i);
        WaitDeferred(k1, evs[1..], i, r);
      }
    }
  }

  /** An undisturbed suspension that was deferred is in force exactly from the tick on with which the sleep or
      the wait of the task would have ended: until then the task sleeps or waits on with the remainder it would
      have had, from then on it is suspended and not in the runnable set, and a wait has timed out. */
  lemma DeferredSuspends(k: K, u: nat, evs: seq<Event>, r: K)
    requires Inv(k) && !k.mode.hrt && SuspendTask(k, u).1 == SuspendDeferred
    requires Calm(SuspendTask(k, u).0, evs, Find(k, u).value, r)
    ensures var i, k1 := Find(k, u).value, SuspendTask(k, u).0;
      var t := k.tasks[i];
      && (!IsWaiting(t) && !Infinite(t) ==> DeferredFor(r, i, TicksIn(evs), Due(k1, evs, i)))
      && (IsWaiting(t) && t.wait.time < WAIT_INFINITE ==>
            && DeferredFor(r, i, TicksIn(evs), Max(t.wait.time, 1))
            && r.tasks[i].wait.state == if TicksIn(evs) < Max(t.wait.time, 1) then Waiting else TimedOut)
  {
    SuspendKeeps(k, u);
    var i, k1 := Find(k, u).value, SuspendTask(k, u).0;
    hide Core, Calm, FindFrom, DeferredFor, Due;
    if IsWaiting(k.tasks[i]) { WaitingFacts(k1, i); }
    if !IsWaiting(k.tasks[i]) && !Infinite(k.tasks[i]) { SleepDeferred(k1, evs, i, r); }
    if IsWaiting(k.tasks[i]) && k.tasks[i].wait.time < WAIT_INFINITE { WaitDeferred(k1, evs, i, r); }
  }
}
