/** Tickless operation: one coalesced tick stands for the single ticks it replaces. */
module KernelTickless {
  import opened KernelTypes
  import opened KernelSpec
  import opened KernelInv
  import opened KernelSync
  import opened KernelRuns
  import opened KernelTick
  import opened KernelFrame

  /** `d` ticks during which nothing expires, seen from one slot. */
  function AgeTask(t: Task, d: int): Task {
    if IsWaiting(t) then if t.wait.time == WAIT_INFINITE then t else t.(wait := t.wait.(time := t.wait.time - d))
    else if Asleep(t) && !Infinite(t) then t.(sleep := t.sleep + d) else t
  }

  function Age(k: K, d: int): K {
    k.(ticks := k.ticks + d,
       tasks := seq(|k.tasks|, j requires 0 <= j < |k.tasks| => AgeTask(k.tasks[j], d)))
  }

  /** The slot holds no task, or one that sleeps or waits for at least `r` more ticks. */
  predicate QuietTask(t: Task, r: int) {
    Busy(t) ==>
      && Asleep(t) && !t.sleepPending && !t.removePending && !t.yieldPending
      && if IsWaiting(t) then t.wait.time >= r else -t.sleep >= r
  }

  /** The sleep trap is active and nothing happens by itself for `r` ticks. */
  ghost predicate Quiet(k: K, r: int) {
    && Inv(k) && k.mode.tickless && k.fsm == Sleeping && k.kstate != Locked && 1 <= r <= TICKLESS_TICKS_MAX
    && (forall j :: 0 <= j < |k.tasks| ==> QuietTask(k.tasks[j], r))
    && (forall s :: s in k.syncs ==> WaitList(k, s) != [])
  }

  // ---- a tick that returns more than one leaves the kernel quiet ------------------------------

  /** How long a slot can do without a tick: a waiter until its timeout, any other task until its sleep ends. */
  function Rest(m: Mode, t: Task): int {
    if !(m.sync && IsWaiting(t)) then Max(1, -t.sleep)
    else if t.wait.time > 0 then t.wait.time else TICKLESS_TICKS_MAX
  }

  /** `r` is the shortest rest of the tasks in `ts`, and at most the largest number of ticks that the timer may
      be suppressed; without tickless operation the timer is never suppressed. */
  ghost predicate Shortest(m: Mode, ts: seq<Task>, r: int) {
    if !m.tickless then r == 1 else
    && 1 <= r <= TICKLESS_TICKS_MAX
    && (forall j :: 0 <= j < |ts| && Busy(ts[j]) ==> r <= Rest(m, ts[j]))
    && (r == TICKLESS_TICKS_MAX || exists j :: 0 <= j < |ts| && Busy(ts[j]) && r == Rest(m, ts[j]))
  }

  lemma ShortestNext(m: Mode, ts: seq<Task>, t: Task, r: int)
    requires m.tickless && Shortest(m, ts, r)
    ensures Shortest(m, ts + [t], if r > 1 && Busy(t) then GetSleepTicks(m, t, r) else r)
  {
    var us, q := ts + [t], if r > 1 && Busy(t) then GetSleepTicks(m, t, r) else r;
    forall j | 0 <= j < |us| && Busy(us[j]) ensures q <= Rest(m, us[j]) {
      if j < |ts| { assert us[j] == ts[j]; }
    }
    if q != TICKLESS_TICKS_MAX {
      if q == r {
        var j :| 0 <= j < |ts| && Busy(ts[j]) && r == Rest(m, ts[j]);
        assert us[j] == ts[j];
      } else {
        assert us[|ts|] == t;
      }
    }
  }

  lemma {:induction false} SweepShortest(s: Sweep, i: nat, e: int)
    requires i <= |s.k.tasks| && s.k.mode.tickless && Shortest(s.k.mode, s.k.tasks[..i], s.ticks)
    ensures Shortest(s.k.mode, SweepFrom(s, i, e).k.tasks, SweepFrom(s, i, e).ticks)
    decreases |s.k.tasks| - i
  {
    if i < |s.k.tasks| {
      var s1 := SweepSlot(s, i, e);
      TickSlotIs(s.k, i, e);
      hide TickSlot, SlotTask, GetSleepTicks, Shortest;
      assert s1.k.tasks[..i] == s.k.tasks[..i];
      assert s1.k.tasks[..i + 1] == s.k.tasks[..i] + [s1.k.tasks[i]];
      ShortestNext(s.k.mode, s.k.tasks[..i], s1.k.tasks[i], s.ticks);
      SweepShortest(s1, i + 1, e);
    } else {
      assert s.k.tasks[..i] == s.k.tasks;
    }
  }

  /** The answer of the loop over the slots is the shortest rest of the tasks that it leaves. */
  lemma UpdateAnswers(k: K, e: int)
    ensures Shortest(k.mode, UpdateTaskState(k, e).k.tasks, UpdateTaskState(k, e).ticks)
  {
    if k.mode.tickless {
      hide SweepFrom;
      SweepShortest(Sweep(k, TICKLESS_TICKS_MAX), 0, e);
    } else {
      SweepUncounted(Sweep(k, 1), 0, e);
    }
  }

  lemma {:induction false} SweepUncounted(s: Sweep, i: nat, e: int)
    requires i <= |s.k.tasks| && !s.k.mode.tickless
    ensures SweepFrom(s, i, e).ticks == s.ticks
    decreases |s.k.tasks| - i
  {
    hide TickSlot;
    if i < |s.k.tasks| { SweepUncounted(SweepSlot(s, i, e), i + 1, e); }
  }

  /** Time slices play no part in it, and nothing does without tickless operation. */
  lemma ShortestAgain(m: Mode, ts: seq<Task>, us: seq<Task>, r: int)
    requires Shortest(m, ts, r) && |us| == |ts|
    requires m.tickless ==> forall j :: 0 <= j < |ts| ==> us[j] == ts[j].(ts := us[j].ts)
    ensures Shortest(m, us, r)
  {
    if m.tickless {
      forall j | 0 <= j < |ts| ensures Busy(us[j]) == Busy(ts[j]) && Rest(m, us[j]) == Rest(m, ts[j]) {
        assert us[j] == ts[j].(ts := us[j].ts);
      }
    }
  }

  lemma {:induction false} WaitersKeepOthers(k: K, ws: seq<nat>, e: int, x: nat)
    requires Core(k) && AllWaiting(k, ws) && e >= 0
    requires forall i :: i in ws ==> k.tasks[i].wait.sync != Some(x)
    ensures WaitList(TickWaiters(k, ws, e), x) == WaitList(k, x)
    decreases |ws|
  {
    if ws != [] {
      TailWaiting(k, ws);
      assert SlotInv(k, ws[0]);
      TickWaiterKeeps(k, ws[0], e);
      TickWaiterFrame(k, ws[0], e);
      var k1 := TickWaiter(k, ws[0], e);
      assert WaitList(k1, x) == WaitList(k, x);
      hide Core, TickWaiter, WaitList;
      WaitersKeepOthers(k1, ws[1..], e, x);
    }
  }

  lemma SyncKeepsOthers(k: K, s: nat, e: int, x: nat)
    requires Core(k) && e >= 0 && x != s
    ensures WaitList(TickSync(k, s, e), x) == WaitList(k, x)
    ensures x in TickSync(k, s, e).syncs <==> x in k.syncs
  {
    WaitListWaiting(k, s);
    forall i | i in WaitList(k, s) ensures k.tasks[i].wait.sync != Some(x) {
      assert k.tasks[i].wait.sync == Some(s);
    }
    WithoutMembers(k.syncs, s);
    hide Core;
    WaitersKeepOthers(k, WaitList(k, s), e, x);
  }

  /** Only sync objects with a waiter stay registered. */
  lemma {:induction false} SyncsNonEmpty(k: K, ss: seq<nat>, e: int)
    requires Core(k) && NoDup(ss) && e >= 0
    requires forall s :: s in k.syncs && s !in ss ==> WaitList(k, s) != []
    ensures forall s :: s in TickSyncs(k, ss, e).syncs ==> WaitList(TickSyncs(k, ss, e), s) != []
    decreases |ss|
  {
    if ss != [] {
      var s := ss[0];
      TickSyncKeeps(k, s, e);
      var k1 := TickSync(k, s, e);
      WithoutMembers(k.syncs, s);
      assert NoDup(ss[1..]);
      hide SlotInv, Distinct, Replay, TickWaiters;
      forall x | x in k1.syncs && x !in ss[1..] ensures WaitList(k1, x) != [] {
        if x != s { SyncKeepsOthers(k, s, e, x); assert x in ss <==> x in ss[1..]; }
      }
      SyncsNonEmpty(k1, ss[1..], e);
    }
  }

  /** The answer leaves every task its rest, also before the scheduler step. */
  lemma BodyTicks(k: K, e: int)
    requires Inv(k)
    ensures Shaped(k) && Shortest(k.mode, TickBody(k, e).tasks, TickReturn(k, e))
  {
    hide Core, UpdateTaskState, UpdateSyncObjects, UpdateTimeslice, Shortest;
    CoreShaped(k);
    var k1 := UpdateSyncObjects(k.(ticks := k.ticks + e), e);
    UpdateAnswers(k1, e);
    var k2, b := UpdateTaskState(k1, e).k, TickBody(k, e);
    forall j | 0 <= j < |b.tasks| ensures b.tasks[j] == k2.tasks[j].(ts := b.tasks[j].ts) { SliceFrame(k2, e, j); }
    ShortestAgain(k.mode, k2.tasks, b.tasks, TickReturn(k, e));
  }

  /** The answer of a tick, of any size, in any mode and locked or not, is the shortest rest of the tasks that
      the tick leaves: some task has to be looked after in exactly that many ticks, and none earlier. */
  lemma TickAnswers(k: K, e: int, c: Choice)
    requires Inv(k) && Fits(k, c)
    ensures Shaped(k) && Shortest(k.mode, Tick(k, e, c).tasks, TickReturn(k, e))
  {
    hide Core, TickBody, TickReturn, UpdateFsmState, Shortest;
    ModeFacts(k);
    BodyTicks(k, e);
    TickTasks(k, e, c);
    if k.mode.hrt { ShortestAgain(k.mode, TickBody(k, e).tasks, Tick(k, e, c).tasks, TickReturn(k, e)); }
  }

  lemma BodySyncs(k: K, e: int)
    requires Inv(k) && e >= 0
    ensures forall s :: s in TickBody(k, e).syncs ==> WaitList(TickBody(k, e), s) != []
  {
    var k0 := k.(ticks := k.ticks + e);
    ClockKeeps(k, k0);
    if k.mode.sync { SyncsNonEmpty(k0, k0.syncs, e); }
    hide Inv, SweepFrom, TickSyncs;
  }

  /** A wait that survives a tick has time left. */
  lemma StillWaits(t: Task, e: int)
    ensures var w := TickWait(t, e).wait; w.sync.Some? ==> w.time > 0
  {
  }

  /** After a tick that returned `r`, one slot. */
  lemma BodyQuiet(k: K, e: int, j: nat)
    requires Inv(k) && e >= 0 && k.mode.tickless && TickReturn(k, e) > 1 && j < |k.tasks|
    ensures QuietTask(TickBody(k, e).tasks[j].(removePending := false), TickReturn(k, e))
    ensures j !in TickBody(k, e).strat.filed
  {
    TickBodyKeeps(k, e);
    BodyTicks(k, e);
    BodyWait(k, e, j);
    StillWaits(k.tasks[j], e);
    var b := TickBody(k, e);
    hide WaitsInv, Distinct, Replay, PhaseInv, TickBody, TickReturn, TickWait;
    assert Settled(b, j) && SlotInv(b, j);
  }

  /** With nothing runnable the scheduler step touches no task and ends in the sleep trap. */
  lemma FsmIdle(b: K, c: Choice)
    requires PhaseInv(b) && Fits(b, c) && b.fsm != FsmNone && !b.mode.hrt && c.next.None?
    ensures var r := UpdateFsmState(b, c);
            && r == b.(now := r.now, fsm := r.fsm) && (r.fsm == Sleeping || r.fsm == Exiting)
            && (b.fsm == Sleeping && r.fsm == Sleeping ==> r == b)
            && (r.fsm == Exiting && b.fsm != Exiting ==> |b.strat.all| == 0)
  {
  }

  /** A tick that allows the timer to stay off for `r` > 1 ticks leaves a kernel in which nothing
      happens for `r` ticks. */
  lemma TickReturnsQuiet(k: K, e: int, c: Choice)
    requires Inv(k) && e >= 0 && Fits(k, c) && LegalChoice(TickBody(k, e).strat, c)
    requires k.mode.tickless && k.kstate != Locked && TickReturn(k, e) > 1
    requires Tick(k, e, c).fsm != Exiting && k.fsm != FsmNone
    requires forall j :: 0 <= j < |k.tasks| ==> !Tick(k, e, c).tasks[j].removePending
    ensures Quiet(Tick(k, e, c), TickReturn(k, e))
  {
    TickKeeps(k, e, c);
    TickBodyKeeps(k, e);
    BodyTicks(k, e);
    BodySyncs(k, e);
    var b, r := TickBody(k, e), Tick(k, e, c);
    assert PhaseInv(b) && b.fsm == k.fsm && b.kstate == k.kstate && b.mode == k.mode;
    hide Core, TickBody, TickReturn, UpdateFsmState, QuietTask;
    forall j | 0 <= j < |b.tasks|
      ensures QuietTask(b.tasks[j].(removePending := false), TickReturn(k, e)) && j !in b.strat.filed
    {
      BodyQuiet(k, e, j);
    }
    assert c.next.None?;
    FsmIdle(b, c);
    forall j | 0 <= j < |r.tasks| ensures QuietTask(r.tasks[j], TickReturn(k, e)) {
      assert r.tasks[j] == r.tasks[j].(removePending := false);
    }
  }

  // ---- fewer ticks than that only age the tasks -----------------------------------------------

  predicate Slack(t: Task, d: int) {
    IsWaiting(t) && t.wait.state == Waiting && (t.wait.time == WAIT_INFINITE || t.wait.time - d > 0)
  }

  lemma {:induction false} SlackWaiters(k: K, ws: seq<nat>, d: int)
    requires InRange(ws, |k.tasks|) && NoDup(ws) && forall i :: i in ws ==> Slack(k.tasks[i], d)
    ensures TickWaiters(k, ws, d) == k.(tasks := TickWaiters(k, ws, d).tasks)
    ensures forall j :: 0 <= j < |k.tasks| && j !in ws ==> TickWaiters(k, ws, d).tasks[j] == k.tasks[j]
    decreases |ws|
  {
    if ws != [] {
      assert ws[0] in ws && forall x :: x in ws[1..] ==> x in ws;
      SlackWaiters(TickWaiter(k, ws[0], d), ws[1..], d);
      assert forall x :: x in ws <==> x == ws[0] || x in ws[1..];
    }
  }

  lemma {:induction false} SlackSyncs(k: K, ss: seq<nat>, d: int)
    requires Core(k) && NoDup(ss) && d >= 0
    requires forall s :: s in ss ==> WaitList(k, s) != []
    requires forall s, i :: s in ss && i in WaitList(k, s) ==> Slack(k.tasks[i], d)
    ensures TickSyncs(k, ss, d) == k.(tasks := TickSyncs(k, ss, d).tasks)
    decreases |ss|
  {
    if ss != [] {
      var s := ss[0];
      assert s in ss && forall x :: x in ss[1..] ==> x in ss && x != s;
      WaitListWaiting(k, s);
      SlackWaiters(k, WaitList(k, s), d);
      TickSyncKeeps(k, s, d);
      var k1 := TickSync(k, s, d);
      assert k1 == k.(tasks := k1.tasks);
      forall x, i | x in ss[1..] && i in WaitList(k1, x) ensures Slack(k1.tasks[i], d) {
        assert i in WaitList(k, x);
        assert i < |k.tasks| && k.tasks[i].wait.sync == Some(x);
        assert i !in WaitList(k, s);
        assert Slack(k.tasks[i], d);
      }
      hide SlotInv, Distinct, Replay, TickSync;
      SlackSyncs(k1, ss[1..], d);
    }
  }

  /** The slot has nothing to report during the next `d` ticks. */
  predicate Silent(t: Task, d: int) {
    if Asleep(t) then !t.sleepPending && !t.removePending && (Infinite(t) || t.sleep + d < 0) else !Busy(t)
  }

  lemma {:induction false} SilentSweep(s: Sweep, i: nat, d: int)
    requires i <= |s.k.tasks| && forall j :: i <= j < |s.k.tasks| ==> Silent(s.k.tasks[j], d)
    ensures SweepFrom(s, i, d).k == s.k.(tasks := SweepFrom(s, i, d).k.tasks)
    decreases |s.k.tasks| - i
  {
    if i < |s.k.tasks| {
      var s1 := SweepSlot(s, i, d);
      assert s1.k == s.k.(tasks := s1.k.tasks);
      assert forall j :: 0 <= j < |s.k.tasks| && j != i ==> s1.k.tasks[j] == s.k.tasks[j];
      hide TickSlot;
      SilentSweep(s1, i + 1, d);
    }
  }

  /** One slot, `d` ticks before anything is due: it ages, and it stays quiet. */
  lemma QuietSlot(k: K, r: int, d: int, j: nat)
    requires Quiet(k, r) && 1 <= d < r && j < |k.tasks|
    ensures var t := k.tasks[j];
            && Silent(TickWait(t, d), d) && !TickWait(t, d).removePending
            && SlotTask(k.mode, TickWait(t, d), true, d) == AgeTask(t, d)
            && QuietTask(AgeTask(t, d), r - d) && (IsWaiting(t) ==> Slack(t, d))
            && AgeTask(t, d).wait.sync == t.wait.sync
  {
    hide WaitsInv, Distinct, Replay;
    assert SlotInv(k, j) && QuietTask(k.tasks[j], r);
  }

  lemma QuietSync(k: K, r: int, d: int)
    requires Quiet(k, r) && 1 <= d < r
    ensures var k0 := k.(ticks := k.ticks + d);
            UpdateSyncObjects(k0, d) == k0.(tasks := UpdateSyncObjects(k0, d).tasks)
  {
    var k0 := k.(ticks := k.ticks + d);
    ClockKeeps(k, k0);
    forall s, i | s in k0.syncs && i in WaitList(k0, s) ensures i < |k0.tasks| && Slack(k0.tasks[i], d) {
      WaitListWaiting(k, s);
      assert i in WaitList(k, s);
      QuietSlot(k, r, d, i);
    }
    forall s | s in k0.syncs ensures WaitList(k0, s) != [] { assert WaitList(k, s) != []; }
    hide SlotInv, Distinct, Replay;
    SlackSyncs(k0, k0.syncs, d);
  }

  lemma QuietBody(k: K, r: int, d: int)
    requires Quiet(k, r) && 1 <= d < r
    ensures Shaped(k) && TickBody(k, d) == Age(k, d)
  {
    hide Core, UpdateSyncObjects, SweepFrom, SlotTask, AgeTask, QuietTask, TickWait, Silent, UpdateTimeslice;
    CoreShaped(k);
    var k0 := k.(ticks := k.ticks + d);
    ClockKeeps(k, k0);
    SyncTick(k0, d);
    QuietSync(k, r, d);
    var k1 := UpdateSyncObjects(k0, d);
    forall j | 0 <= j < |k.tasks| ensures Silent(k1.tasks[j], d) { QuietSlot(k, r, d, j); }
    var s := Sweep(k1, TICKLESS_TICKS_MAX);
    SilentSweep(s, 0, d);
    var b := SweepFrom(s, 0, d).k;
    forall j | 0 <= j < |k.tasks| ensures b.tasks[j] == AgeTask(k.tasks[j], d) {
      QuietSlot(k, r, d, j);
      SweepTask(s, 0, d, j);
    }
    assert b.tasks == Age(k, d).tasks;
    NoCharge(b, d);
  }

  /** Fewer ticks than allowed only age the tasks, whatever the strategy answers. */
  lemma QuietTick(k: K, r: int, d: int, c: Choice)
    requires Quiet(k, r) && 1 <= d < r && Fits(k, c) && LegalChoice(TickBody(k, d).strat, c)
    ensures Tick(k, d, c) == Age(k, d) && Quiet(Age(k, d), r - d)
  {
    QuietBody(k, r, d);
    TickKeeps(k, d, c);
    forall j | 0 <= j < |k.tasks| ensures j !in k.strat.filed && QuietTask(AgeTask(k.tasks[j], d), r - d) {
      QuietSlot(k, r, d, j);
      assert SlotInv(k, j) && QuietTask(k.tasks[j], r);
    }
    hide SlotInv, WaitsInv, Distinct, Replay, TickBody, QuietTask, AgeTask;
    var b := Age(k, d);
    assert c.next.None?;
    FsmIdle(b, c);
    assert |b.strat.all| != 0 by { assert k.now.value in k.strat.all; }
    forall s | s in b.syncs ensures WaitList(b, s) != [] { assert WaitList(b, s) == WaitList(k, s); }
  }

  // ---- the tick on which something is due -----------------------------------------------------

  /** Everything but the tasks and the clock agrees. */
  ghost predicate SameRest(a: K, b: K) { b == a.(tasks := b.tasks, ticks := b.ticks) && |b.tasks| == |a.tasks| }

  /** The waiter is due in `d` + 1 ticks at the earliest, and `y` is the waiter `d` ticks later. */
  predicate Later(x: Task, y: Task, d: int) {
    IsWaiting(x) && x.wait.state == Waiting && x.wait.time >= d + 1 && y == AgeTask(x, d)
  }

  lemma PairWaiter(a: K, b: K, i: nat, d: int)
    requires SameRest(a, b) && i < |a.tasks| && Later(a.tasks[i], b.tasks[i], d) && 0 <= d < WAIT_INFINITE - 1
    ensures SameRest(TickWaiter(a, i, d + 1), TickWaiter(b, i, 1))
    ensures forall j :: 0 <= j < |a.tasks| && j != i ==>
              TickWaiter(a, i, d + 1).tasks[j] == a.tasks[j] && TickWaiter(b, i, 1).tasks[j] == b.tasks[j]
  {
    assert forall s: nat :: WaitList(a, s) == WaitList(b, s);
  }

  lemma {:induction false} PairWaiters(a: K, b: K, ws: seq<nat>, d: int)
    requires SameRest(a, b) && InRange(ws, |a.tasks|) && NoDup(ws) && 0 <= d < WAIT_INFINITE - 1
    requires forall i :: i in ws ==> Later(a.tasks[i], b.tasks[i], d)
    ensures SameRest(TickWaiters(a, ws, d + 1), TickWaiters(b, ws, 1))
    decreases |ws|
  {
    if ws != [] {
      assert ws[0] in ws && forall x :: x in ws[1..] ==> x in ws;
      PairWaiter(a, b, ws[0], d);
      hide TickWaiter;
      PairWaiters(TickWaiter(a, ws[0], d + 1), TickWaiter(b, ws[0], 1), ws[1..], d);
    }
  }

  lemma PairSync(a: K, b: K, s: nat, d: int)
    requires Core(a) && SameRest(a, b) && 0 <= d < WAIT_INFINITE - 1
    requires forall i :: i in WaitList(a, s) ==> i < |a.tasks| && Later(a.tasks[i], b.tasks[i], d)
    ensures SameRest(TickSync(a, s, d + 1), TickSync(b, s, 1))
  {
    assert WaitList(b, s) == WaitList(a, s);
    WaitListWaiting(a, s);
    hide Core;
    PairWaiters(a, b, WaitList(a, s), d);
  }

  /** Ticking one sync object leaves the waiters of another as they were. */
  lemma SyncKeepsTasks(k: K, s: nat, x: nat, e: int, i: nat)
    requires Core(k) && e >= 0 && x != s && i in WaitList(TickSync(k, s, e), x)
    ensures i in WaitList(k, x) && i < |k.tasks| && TickSync(k, s, e).tasks[i] == k.tasks[i]
  {
    SyncKeepsOthers(k, s, e, x);
    WaitListWaiting(k, s);
    TickWaitersEach(k, WaitList(k, s), e);
    assert i < |k.tasks| && k.tasks[i].wait.sync == Some(x) by { WaitListWaiting(k, x); }
    assert i !in WaitList(k, s);
  }

  ghost predicate LaterList(a: K, b: K, s: nat, d: int)
    requires |a.tasks| == |b.tasks|
  {
    forall i :: i in WaitList(a, s) ==> i < |a.tasks| && Later(a.tasks[i], b.tasks[i], d)
  }

  ghost predicate LaterAll(a: K, b: K, ss: seq<nat>, d: int)
    requires |a.tasks| == |b.tasks|
  {
    forall s :: s in ss ==> LaterList(a, b, s, d)
  }

  lemma LaterOne(a: K, b: K, s: nat, x: nat, i: nat, d: int)
    requires Core(a) && Core(b) && SameRest(a, b) && 0 <= d && x != s
    requires SameRest(TickSync(a, s, d + 1), TickSync(b, s, 1)) && i in WaitList(TickSync(a, s, d + 1), x)
    requires i in WaitList(a, x) && i < |a.tasks| ==> Later(a.tasks[i], b.tasks[i], d)
    ensures i < |a.tasks| && Later(TickSync(a, s, d + 1).tasks[i], TickSync(b, s, 1).tasks[i], d)
  {
    hide Core, TickSync, Later;
    CoreShaped(a);
    CoreShaped(b);
    var a1, b1 := TickSync(a, s, d + 1), TickSync(b, s, 1);
    SyncKeepsTasks(a, s, x, d + 1, i);
    assert WaitList(b1, x) == WaitList(a1, x);
    SyncKeepsTasks(b, s, x, 1, i);
  }

  lemma LaterTail(a: K, b: K, ss: seq<nat>, d: int)
    requires Core(a) && Core(b) && SameRest(a, b) && ss != [] && NoDup(ss) && 0 <= d && LaterAll(a, b, ss, d)
    requires SameRest(TickSync(a, ss[0], d + 1), TickSync(b, ss[0], 1))
    ensures LaterAll(TickSync(a, ss[0], d + 1), TickSync(b, ss[0], 1), ss[1..], d)
  {
    hide Core, TickSync, Later;
    CoreShaped(a);
    CoreShaped(b);
    var s := ss[0];
    var a1, b1 := TickSync(a, s, d + 1), TickSync(b, s, 1);
    forall x | x in ss[1..] ensures LaterList(a1, b1, x, d) {
      assert x in ss && x != s && LaterList(a, b, x, d);
      forall i | i in WaitList(a1, x) ensures i < |a1.tasks| && Later(a1.tasks[i], b1.tasks[i], d) {
        LaterOne(a, b, s, x, i, d);
      }
    }
  }

  lemma {:induction false} PairSyncs(a: K, b: K, ss: seq<nat>, d: int)
    requires Core(a) && Core(b) && SameRest(a, b) && NoDup(ss) && 0 <= d < WAIT_INFINITE - 1
    requires LaterAll(a, b, ss, d)
    ensures SameRest(TickSyncs(a, ss, d + 1), TickSyncs(b, ss, 1))
    decreases |ss|
  {
    hide Core, TickSync, Later;
    CoreShaped(a);
    CoreShaped(b);
    if ss != [] {
      var s := ss[0];
      assert NoDup(ss[1..]);
      assert s in ss && LaterList(a, b, s, d);
      PairSync(a, b, s, d);
      TickSyncKeeps(a, s, d + 1);
      TickSyncKeeps(b, s, 1);
      LaterTail(a, b, ss, d);
      PairSyncs(TickSync(a, s, d + 1), TickSync(b, s, 1), ss[1..], d);
    }
  }

  // ---- the same for the slots -----------------------------------------------------------------

  /** An awake task counts as awake, whatever its sleep counter overshot. */
  function NormTask(t: Task): Task { if t.sleep > 0 then t.(sleep := 0) else t }

  function Norm(k: K): K {
    k.(tasks := seq(|k.tasks|, j requires 0 <= j < |k.tasks| => NormTask(k.tasks[j])))
  }

  /** `d` + 1 ticks for `x` and one tick for `y` leave equal tasks and make equal calls. */
  ghost predicate Twin(m: Mode, j: nat, x: Task, y: Task, d: int) {
    && !x.removePending && !y.removePending
    && SlotNotes(m, j, x, true, d + 1) == SlotNotes(m, j, y, true, 1)
    && NormTask(SlotTask(m, x, true, d + 1)) == NormTask(SlotTask(m, y, true, 1))
  }

  lemma NotExiting(m: Mode, j: nat, t: Task, removable: bool, e: int)
    requires !t.removePending
    ensures SlotTask(m, t, removable, e) == SlotTask(m, t, true, e)
    ensures SlotNotes(m, j, t, removable, e) == SlotNotes(m, j, t, true, e)
  {
  }

  lemma {:induction false} PairSweep(a: Sweep, b: Sweep, i: nat, d: int)
    requires i <= |a.k.tasks| == |b.k.tasks| && a.k.log == b.k.log && a.k.mode == b.k.mode
    requires forall j :: i <= j < |a.k.tasks| ==> Twin(a.k.mode, j, a.k.tasks[j], b.k.tasks[j], d)
    requires forall j :: 0 <= j < i ==> NormTask(a.k.tasks[j]) == NormTask(b.k.tasks[j])
    ensures SweepFrom(a, i, d + 1).k.log == SweepFrom(b, i, 1).k.log
    ensures forall j :: 0 <= j < |a.k.tasks| ==>
              NormTask(SweepFrom(a, i, d + 1).k.tasks[j]) == NormTask(SweepFrom(b, i, 1).k.tasks[j])
    decreases |a.k.tasks| - i
  {
    if i < |a.k.tasks| {
      var x, y := a.k.tasks[i], b.k.tasks[i];
      assert Twin(a.k.mode, i, x, y, d);
      TickSlotIs(a.k, i, d + 1);
      TickSlotIs(b.k, i, 1);
      TickSlotLog(a.k, i, d + 1);
      TickSlotLog(b.k, i, 1);
      NotExiting(a.k.mode, i, x, Removable(a.k, i), d + 1);
      NotExiting(b.k.mode, i, y, Removable(b.k, i), 1);
      hide TickSlot, SlotTask, SlotNotes, NormTask, GetSleepTicks;
      var a1, b1 := SweepSlot(a, i, d + 1), SweepSlot(b, i, 1);
      forall j | i + 1 <= j < |a.k.tasks| ensures Twin(a1.k.mode, j, a1.k.tasks[j], b1.k.tasks[j], d) {
        assert Twin(a.k.mode, j, a.k.tasks[j], b.k.tasks[j], d);
      }
      PairSweep(a1, b1, i + 1, d);
    }
  }

  lemma TwinWaiter(m: Mode, j: nat, t: Task, r: int)
    requires !m.hrt && QuietTask(t, r) && 1 <= r <= TICKLESS_TICKS_MAX && Busy(t) && IsWaiting(t)
    requires Infinite(t) && t.wait.time <= WAIT_INFINITE
    ensures Twin(m, j, TickWait(t, r), TickWait(AgeTask(t, r - 1), 1), r - 1)
  {
    var x := TickWait(t, r);
    assert x == TickWait(AgeTask(t, r - 1), 1);
    hide TickWait, AgeTask;
    assert x.sleep == -WAIT_INFINITE || x.sleep == -1;
  }

  lemma TwinSleeper(m: Mode, j: nat, t: Task, r: int)
    requires !m.hrt && QuietTask(t, r) && 1 <= r <= TICKLESS_TICKS_MAX && -WAIT_INFINITE <= t.sleep
    requires !t.removePending && (!Busy(t) ==> !Asleep(t)) && !IsWaiting(t)
    ensures Twin(m, j, TickWait(t, r), TickWait(AgeTask(t, r - 1), 1), r - 1)
  {
    var y := AgeTask(t, r - 1);
    assert TickWait(t, r) == t && TickWait(y, 1) == y;
    hide TickWait;
    if Busy(t) && !Infinite(t) {
      assert y == t.(sleep := t.sleep + (r - 1)) && Asleep(y);
    } else {
      assert y == t;
    }
  }

  lemma TwinTask(m: Mode, j: nat, t: Task, r: int)
    requires !m.hrt && QuietTask(t, r) && 1 <= r <= TICKLESS_TICKS_MAX && -WAIT_INFINITE <= t.sleep
    requires !t.removePending && (!Busy(t) ==> !Asleep(t) && !IsWaiting(t))
    requires IsWaiting(t) ==> Infinite(t) && t.wait.time <= WAIT_INFINITE
    ensures Twin(m, j, TickWait(t, r), TickWait(AgeTask(t, r - 1), 1), r - 1)
  {
    if IsWaiting(t) { TwinWaiter(m, j, t, r); } else { TwinSleeper(m, j, t, r); }
  }

  lemma TwinSlot(k: K, r: int, j: nat)
    requires Quiet(k, r) && j < |k.tasks|
    ensures Twin(k.mode, j, TickWait(k.tasks[j], r), TickWait(AgeTask(k.tasks[j], r - 1), 1), r - 1)
    ensures IsWaiting(k.tasks[j]) ==> Later(k.tasks[j], AgeTask(k.tasks[j], r - 1), r - 1)
  {
    hide WaitsInv, Distinct, Replay, Twin, TickWait;
    assert SlotInv(k, j) && QuietTask(k.tasks[j], r);
    TwinTask(k.mode, j, k.tasks[j], r);
  }

  lemma LastLater(k: K, r: int)
    requires Quiet(k, r)
    ensures LaterAll(k, Age(k, r - 1), k.syncs, r - 1)
  {
    hide Later, AgeTask, QuietTask, SlotInv, WaitsInv, Distinct, Replay;
    forall s | s in k.syncs ensures LaterList(k, Age(k, r - 1), s, r - 1) {
      WaitListWaiting(k, s);
      forall i | i in WaitList(k, s) ensures i < |k.tasks| && Later(k.tasks[i], Age(k, r - 1).tasks[i], r - 1) {
        TwinSlot(k, r, i);
      }
    }
  }

  lemma LastSync(k: K, r: int)
    requires Quiet(k, r) && Inv(Age(k, r - 1))
    ensures SameRest(UpdateSyncObjects(k.(ticks := k.ticks + r), r),
                     UpdateSyncObjects(Age(k, r - 1).(ticks := Age(k, r - 1).ticks + 1), 1))
  {
    hide Core, Later, TickSyncs, AgeTask, QuietTask;
    var k2 := Age(k, r - 1);
    CoreShaped(k);
    CoreShaped(k2);
    var a0, b0 := k.(ticks := k.ticks + r), k2.(ticks := k2.ticks + 1);
    ClockKeeps(k, a0);
    ClockKeeps(k2, b0);
    LastLater(k, r);
    forall s | s in a0.syncs ensures LaterList(a0, b0, s, r - 1) {
      assert LaterList(k, k2, s, r - 1) && WaitList(a0, s) == WaitList(k, s);
    }
    if k.mode.sync { PairSyncs(a0, b0, a0.syncs, r - 1); }
  }

  /** The sweeps of both make the same calls and leave the same tasks. */
  lemma LastSweep(k: K, r: int) returns (a: K, b: K)
    requires Quiet(k, r) && Inv(Age(k, r - 1))
    ensures a == UpdateTaskState(UpdateSyncObjects(k.(ticks := k.ticks + r), r), r).k
    ensures b == UpdateTaskState(UpdateSyncObjects(Age(k, r - 1).(ticks := Age(k, r - 1).ticks + 1), 1), 1).k
    ensures |a.tasks| == |b.tasks| == |k.tasks| && b == a.(tasks := b.tasks, strat := b.strat)
    ensures forall j :: 0 <= j < |a.tasks| ==> NormTask(a.tasks[j]) == NormTask(b.tasks[j])
  {
    hide Core, Later, TickWait, AgeTask, QuietTask, UpdateSyncObjects, SweepFrom, NormTask, Twin;
    var k2 := Age(k, r - 1);
    CoreShaped(k);
    CoreShaped(k2);
    LastSync(k, r);
    var a0, b0 := k.(ticks := k.ticks + r), k2.(ticks := k2.ticks + 1);
    ClockKeeps(k, a0);
    ClockKeeps(k2, b0);
    SyncTick(a0, r);
    SyncTick(b0, 1);
    var a1, b1 := UpdateSyncObjects(a0, r), UpdateSyncObjects(b0, 1);
    var sa, sb := Sweep(a1, TICKLESS_TICKS_MAX), Sweep(b1, TICKLESS_TICKS_MAX);
    forall j | 0 <= j < |k.tasks| ensures Twin(a1.mode, j, a1.tasks[j], b1.tasks[j], r - 1) {
      TwinSlot(k, r, j);
    }
    PairSweep(sa, sb, 0, r - 1);
    a, b := UpdateTaskState(a1, r).k, UpdateTaskState(b1, 1).k;
  }

  lemma BodyReplay(k: K, e: int)
    requires Inv(k) && e >= 0 && k.mode.tickless
    ensures Shaped(k) && Replay(TickBody(k, e).log) == Some(TickBody(k, e).strat)
  {
    ModeFacts(k);
    TickBodyKeeps(k, e);
    hide SlotInv, WaitsInv, Distinct, Replay, TickBody;
  }

  /** Under the sleep trap no time slice is charged. */
  lemma NoCharge(k: K, e: int)
    requires k.fsm == Sleeping
    ensures UpdateTimeslice(k, e) == k
  {
  }

  /** The last of `r` ticks: all at once or one after `r` - 1, the slots end up alike. */
  lemma LastBody(k: K, r: int)
    requires Quiet(k, r) && Inv(Age(k, r - 1))
    ensures Shaped(k) && Shaped(Age(k, r - 1)) && Norm(TickBody(k, r)) == Norm(TickBody(Age(k, r - 1), 1))
  {
    hide Core, AgeTask, QuietTask, UpdateSyncObjects, UpdateTaskState, UpdateTimeslice, NormTask, Replay;
    BodyReplay(k, r);
    BodyReplay(Age(k, r - 1), 1);
    var a, b := LastSweep(k, r);
    NoCharge(a, r);
    NoCharge(b, 1);
    assert Norm(a).tasks == Norm(b).tasks;
  }

  /** The scheduler step looks at no task, so equal bodies end alike. */
  lemma FsmNorm(a: K, b: K, c: Choice)
    requires Norm(a) == Norm(b) && Shaped(a) && Shaped(b) && Fits(a, c) && Fits(b, c) && !a.mode.hrt
    requires a.kstate != Locked
    ensures Norm(UpdateFsmState(a, c)) == Norm(UpdateFsmState(b, c))
  {
    hide NormTask;
    var na, nb := Norm(a), Norm(b);
    assert a == na.(tasks := a.tasks) && b == nb.(tasks := b.tasks);
    var ra, rb := UpdateFsmState(a, c), UpdateFsmState(b, c);
    assert ra == a.(now := ra.now, fsm := ra.fsm) && rb == b.(now := rb.now, fsm := rb.fsm);
    assert ra.now == rb.now && ra.fsm == rb.fsm;
    assert Norm(ra).tasks == na.tasks && Norm(rb).tasks == nb.tasks;
  }

  // ---- the theorem ----------------------------------------------------------------------------

  /** A run of single ticks, one for each answer of the strategy. */
  ghost predicate SingleTicks(k: K, cs: seq<Choice>, r: K)
    decreases |cs|
  {
    if cs == [] then r == k
    else Inv(k) && Fits(k, cs[0]) && LegalChoice(TickBody(k, 1).strat, cs[0])
         && SingleTicks(Tick(k, 1, cs[0]), cs[1..], r)
  }

  lemma AgeZero(k: K)
    ensures Age(k, 0) == k
  {
    assert Age(k, 0).tasks == k.tasks;
  }

  /** The first `j` - 1 single ticks of a quiet kernel only age it. */
  lemma {:induction false} QuietSingles(k: K, r: int, cs: seq<Choice>, x: K)
    requires Quiet(k, r) && 1 <= |cs| <= r && SingleTicks(k, cs, x)
    ensures var n := |cs| - 1; var k1 := Age(k, n); var c := cs[n];
            && Quiet(k1, r - n) && Fits(k1, c) && LegalChoice(TickBody(k1, 1).strat, c) && x == Tick(k1, 1, c)
    decreases |cs|
  {
    hide Core, TickBody, Tick, Age;
    CoreShaped(k);
    if |cs| == 1 {
      AgeZero(k);
      assert cs[1..] == [];
    } else {
      var k1 := Age(k, 1);
      QuietTick(k, r, 1, cs[0]);
      QuietSingles(k1, r - 1, cs[1..], x);
      AgeChain(k, r, |cs| - 2);
    }
  }

  lemma AgeChain(k: K, r: int, n: nat)
    requires Quiet(k, r) && n + 1 <= r
    ensures Age(Age(k, 1), n) == Age(k, n + 1)
  {
    hide WaitsInv, Distinct, Replay;
    forall j | 0 <= j < |k.tasks| ensures AgeTask(AgeTask(k.tasks[j], 1), n) == AgeTask(k.tasks[j], n + 1) {
      assert SlotInv(k, j) && QuietTask(k.tasks[j], r);
    }
    assert Age(Age(k, 1), n).tasks == Age(k, n + 1).tasks;
  }

  /** After a tick that allows the timer to be suppressed for `r` ticks, one coalesced tick of any
      `j` <= `r` ends in the same state as `j` single ticks: the same clock, current task, machine
      states, wait lists and history of strategy calls, and each task with the same remainder, up to
      the counter of tasks that are awake. The last answer of the strategy is legal in both. */
  lemma Tickless(k: K, e: int, c0: Choice, cs: seq<Choice>, x: K)
    requires Inv(k) && e >= 0 && Fits(k, c0) && LegalChoice(TickBody(k, e).strat, c0)
    requires k.mode.tickless && k.kstate != Locked && k.fsm != FsmNone
    requires Tick(k, e, c0).fsm != Exiting
    requires forall j :: 0 <= j < |k.tasks| ==> !Tick(k, e, c0).tasks[j].removePending
    requires 1 <= |cs| <= TickReturn(k, e) && SingleTicks(Tick(k, e, c0), cs, x)
    ensures var k1, c := Tick(k, e, c0), cs[|cs| - 1];
            && Fits(k1, c) && LegalChoice(TickBody(k1, |cs|).strat, c)
            && Norm(Tick(k1, |cs|, c)) == Norm(x)
  {
    hide Core, TickBody, TickReturn, Tick, Norm, Quiet;
    CoreShaped(k);
    var k1, r, n, c := Tick(k, e, c0), TickReturn(k, e), |cs|, cs[|cs| - 1];
    ModeFacts(k);
    TickKeeps(k, e, c0);
    CoreShaped(k1);
    if r == 1 {
      assert cs[1..] == [];
    } else {
      TickReturnsQuiet(k, e, c0);
      QuietSingles(k1, r, cs, x);
      CoalescedTick(k1, r, n, c);
    }
  }

  lemma CoalescedTick(k: K, r: int, n: nat, c: Choice)
    requires Quiet(k, r) && 1 <= n <= r && Quiet(Age(k, n - 1), r - (n - 1))
    requires Fits(Age(k, n - 1), c) && LegalChoice(TickBody(Age(k, n - 1), 1).strat, c)
    ensures Fits(k, c) && LegalChoice(TickBody(k, n).strat, c)
    ensures Norm(Tick(k, n, c)) == Norm(Tick(Age(k, n - 1), 1, c))
  {
    hide Core, TickBody, UpdateFsmState, QuietTask, AgeTask;
    CoreShaped(k);
    CoreShaped(Age(k, n - 1));
    LowerQuiet(k, r, n);
    LastBody(k, n);
    var a, b := TickBody(k, n), TickBody(Age(k, n - 1), 1);
    ModeFacts(k);
    assert a.strat == b.strat by { assert Norm(a).strat == Norm(b).strat; }
    assert a.kstate == b.kstate by { assert Norm(a).kstate == Norm(b).kstate; }
    BodyKState(k, n);
    FsmNorm(a, b, c);
  }

  lemma LowerQuiet(k: K, r: int, n: int)
    requires Quiet(k, r) && 1 <= n <= r
    ensures Quiet(k, n)
  {
    hide Core;
    forall j | 0 <= j < |k.tasks| ensures QuietTask(k.tasks[j], n) { assert QuietTask(k.tasks[j], r); }
  }

  lemma BodyKState(k: K, e: int)
    requires Shaped(k)
    ensures TickBody(k, e).kstate == k.kstate && TickBody(k, e).mode == k.mode
  {
    hide TickSyncs, SweepFrom;
  }
}
