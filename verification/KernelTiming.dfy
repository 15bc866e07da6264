/** Time: how long a sleep lasts. */
module KernelTiming {
  import opened KernelTypes
  import opened KernelSpec
  import opened KernelInv
  import opened KernelRuns
  import opened KernelCalls
  import opened KernelTick
  import opened KernelSched
  import opened KernelFrame

  // ---- clock ----------------------------------------------------------------------------------

  /** Only ticks move the clock. */
  lemma ClockSteps(k: K, ev: Event)
    requires Inv(k) && Enabled(k, ev)
    ensures Next(k, ev).ticks == k.ticks + if ev.TickBy? then ev.e else 0
    ensures Next(k, ev).mode == k.mode
  {
    hide Core, Next, Enabled;
    CoreShaped(k);
    EventFrame(k, ev);
  }

  // ---- undisturbed runs -----------------------------------------------------------------------

  /** A run of single ticks, forced switches and events that are not about slot `i`. */
  ghost predicate Calm(k: K, evs: seq<Event>, i: nat, r: K)
    requires i < |k.tasks|
    decreases |evs|
  {
    if evs == [] then r == k else
    && Shaped(k) && Enabled(k, evs[0]) && |Next(k, evs[0]).tasks| == |k.tasks|
    && (if evs[0].TickBy? then evs[0].e == 1 else evs[0].Force? || !Targets(k, evs[0], i))
    && Calm(Next(k, evs[0]), evs[1..], i, r)
  }

  function TicksIn(evs: seq<Event>): nat {
    if evs == [] then 0 else (if evs[0].TickBy? then 1 else 0) + TicksIn(evs[1..])
  }

  /** The first tick comes before the forced switch that would take the task off. */
  ghost predicate TakenByTick(k: K, evs: seq<Event>, i: nat)
    requires i < |k.tasks|
    decreases |evs|
  {
    if evs == [] || !(Shaped(k) && Enabled(k, evs[0])) then false
    else if evs[0].TickBy? then true
    else if evs[0].Force? && Acts(k, evs[0].id) then false
    else |Next(k, evs[0]).tasks| == |k.tasks| && TakenByTick(Next(k, evs[0]), evs[1..], i)
  }

  /** One tick outside HRT mode, for a task that is not exiting. */
  lemma TickOf(k: K, c: Choice, i: nat)
    requires Inv(k) && Enabled(k, TickBy(1, c)) && !k.mode.hrt && i < |k.tasks| && !k.tasks[i].removePending
    requires !IsWaiting(k.tasks[i])
    ensures var t := Tick(k, 1, c).tasks[i]; t == SlotTask(k.mode, k.tasks[i], true, 1).(ts := t.ts)
    ensures |Tick(k, 1, c).tasks| == |k.tasks|
  {
    hide Core, TickBody, SlotTask;
    CoreShaped(k);
    TickTask(k, 1, i);
    TickTasks(k, 1, c);
  }

  /** Events other than ticks leave a task alone that is not being switched off. */
  lemma CalmStep(k: K, ev: Event, i: nat)
    requires Inv(k) && Enabled(k, ev) && !k.mode.hrt && i < |k.tasks| && Busy(k.tasks[i]) && !ev.TickBy?
    requires ev.Force? || !Targets(k, ev, i)
    ensures i < |Next(k, ev).tasks|
    ensures !(ev.Force? && k.now == Some(i)) ==> Next(k, ev).tasks[i] == k.tasks[i]
    ensures ev.Force? && k.now == Some(i) ==>
              var t := k.tasks[i]; var acts := Acts(k, ev.id);
              Next(k, ev).tasks[i] == if !acts then t
                                      else if Asleep(t) then t.(sleepPending := false, wakePending := false)
                                      else t.(yieldPending := false)
  {
    hide Core;
    CoreShaped(k);
    if ev.Force? && k.now == Some(i) {
      hide Post;
      ForceTasks(k, ev.id, ev.c);
    } else {
      hide Next;
      OthersUntouched(k, ev, i);
    }
  }

  /** An undisturbed awake task stays awake. */
  lemma {:induction false} UpStays(k: K, evs: seq<Event>, i: nat, r: K)
    requires Inv(k) && !k.mode.hrt && i < |k.tasks| && Calm(k, evs, i, r)
    requires Busy(k.tasks[i]) && !Asleep(k.tasks[i]) && !k.tasks[i].removePending && !IsWaiting(k.tasks[i])
    ensures i < |r.tasks| && !Asleep(r.tasks[i]) && r.tasks[i].wait == k.tasks[i].wait
    decreases |evs|
  {
    hide Core, Next, Enabled, SlotTask;
    if evs != [] {
      CoreShaped(k);
      NextKeeps(k, evs[0]);
      ClockSteps(k, evs[0]);
      if evs[0].TickBy? { TickOf(k, evs[0].c, i); UpSlot(k.mode, k.tasks[i]); NextTick(k, evs[0]); }
      else { CalmStep(k, evs[0], i); }
      UpStays(Next(k, evs[0]), evs[1..], i, r);
    }
  }

  lemma NextTick(k: K, ev: Event)
    requires Shaped(k) && Enabled(k, ev) && ev.TickBy?
    ensures Fits(k, ev.c) && Next(k, ev) == Tick(k, ev.e, ev.c)
  {
  }

  lemma UpSlot(m: Mode, t: Task)
    requires !m.hrt && !Asleep(t)
    ensures var u := SlotTask(m, t, true, 1);
            u == t.(yieldPending := u.yieldPending)
  {
  }

  lemma DownSlot(m: Mode, t: Task)
    requires Asleep(t) && !Infinite(t) && !t.removePending && !t.suspendPending && !m.hrt
    ensures var u := SlotTask(m, t, true, 1);
            if t.sleepPending && !t.wakePending
            then u == t.(sleepPending := false, yieldPending := u.yieldPending)
            else u == t.(sleepPending := false, wakePending := u.wakePending, yieldPending := u.yieldPending,
                         sleep := t.sleep + 1)
  {
  }

  /** A task that was taken off with `m` ticks to go sleeps through exactly `m` - 1 ticks. */
  lemma {:induction false} OffTiming(k: K, evs: seq<Event>, i: nat, r: K)
    requires Inv(k) && !k.mode.hrt && i < |k.tasks| && Calm(k, evs, i, r) && Busy(k.tasks[i])
    requires Asleep(k.tasks[i]) && !Infinite(k.tasks[i]) && !k.tasks[i].sleepPending
    requires !k.tasks[i].removePending && !k.tasks[i].suspendPending && !IsWaiting(k.tasks[i])
    ensures i < |r.tasks| && (Asleep(r.tasks[i]) <==> TicksIn(evs) < -k.tasks[i].sleep)
    decreases |evs|
  {
    hide Core, Next, Enabled, SlotTask;
    if evs != [] {
      CoreShaped(k);
      NextKeeps(k, evs[0]);
      ClockSteps(k, evs[0]);
      var k1 := Next(k, evs[0]);
      if evs[0].TickBy? {
        TickOf(k, evs[0].c, i);
        NextTick(k, evs[0]);
        DownSlot(k.mode, k.tasks[i]);
        NotInfinite(k, i);
        if Asleep(k1.tasks[i]) { OffTiming(k1, evs[1..], i, r); } else { UpStays(k1, evs[1..], i, r); }
      } else {
        CalmStep(k, evs[0], i);
        OffTiming(k1, evs[1..], i, r);
      }
    }
  }

  lemma NotInfinite(k: K, i: nat)
    requires Core(k) && i < |k.tasks|
    ensures -WAIT_INFINITE <= k.tasks[i].sleep
  {
    assert SlotInv(k, i);
  }

  /** The tick that takes the task off is not counted as part of the sleep, unless a wake raced in. */
  ghost predicate Late(k: K, evs: seq<Event>, i: nat)
    requires i < |k.tasks|
  {
    TakenByTick(k, evs, i) && !k.tasks[i].wakePending
  }

  /** A pending sleep, from the call to the end of an undisturbed run. */
  lemma {:induction false} PendingTiming(k: K, evs: seq<Event>, i: nat, r: K)
    requires Inv(k) && !k.mode.hrt && i < |k.tasks| && Calm(k, evs, i, r) && Busy(k.tasks[i])
    requires Asleep(k.tasks[i]) && !Infinite(k.tasks[i]) && k.tasks[i].sleepPending && k.now == Some(i)
    requires !k.tasks[i].removePending && !k.tasks[i].suspendPending && !IsWaiting(k.tasks[i])
    ensures i < |r.tasks|
    ensures Asleep(r.tasks[i]) <==> TicksIn(evs) < -k.tasks[i].sleep + if Late(k, evs, i) then 1 else 0
    decreases |evs|
  {
    hide Core, Next, Enabled, SlotTask, ForceBody;
    if evs != [] {
      CoreShaped(k);
      NextKeeps(k, evs[0]);
      ClockSteps(k, evs[0]);
      var k1 := Next(k, evs[0]);
      if evs[0].TickBy? {
        TickOf(k, evs[0].c, i);
        NextTick(k, evs[0]);
        DownSlot(k.mode, k.tasks[i]);
        NotInfinite(k, i);
        if Asleep(k1.tasks[i]) { OffTiming(k1, evs[1..], i, r); } else { UpStays(k1, evs[1..], i, r); }
      } else {
        CalmStep(k, evs[0], i);
        if evs[0].Force? && Acts(k, evs[0].id) {
          OffTiming(k1, evs[1..], i, r);
        } else {
          StillNow(k, evs[0]);
          PendingTiming(k1, evs[1..], i, r);
        }
      }
    }
  }

  /** A Sleep(n) that is not disturbed ends after exactly `n` single ticks when a forced switch takes
      the task off, and after exactly `n` + 1 when its entry tick does; never earlier. */
  lemma SleepLasts(k: K, n: int, evs: seq<Event>, r: K)
    requires Inv(k) && Active(k) && !k.mode.hrt && k.kstate != Locked && 0 < n < WAIT_INFINITE
    requires Calm(Sleep(k, n).0, evs, k.now.value, r)
    ensures var i, k1 := k.now.value, Sleep(k, n).0;
            i < |r.tasks| && (Asleep(r.tasks[i]) <==> TicksIn(evs) < n + if Late(k1, evs, i) then 1 else 0)
  {
    hide Core, Calm, TakenByTick;
    ActiveFacts(k);
    NapKeeps(k, n);
    PendingTiming(Sleep(k, n).0, evs, k.now.value, r);
  }

  lemma ActiveFacts(k: K)
    requires Inv(k) && Active(k)
    ensures var t := k.tasks[k.now.value]; !t.suspendPending && !IsWaiting(t)
  {
    assert SlotInv(k, k.now.value);
  }

  lemma {:induction false} CalmClock(k: K, evs: seq<Event>, i: nat, r: K)
    requires Inv(k) && i < |k.tasks| && Calm(k, evs, i, r)
    ensures r.ticks == k.ticks + TicksIn(evs)
    decreases |evs|
  {
    hide Core, Next, Enabled;
    if evs != [] {
      CoreShaped(k);
      NextKeeps(k, evs[0]);
      ClockSteps(k, evs[0]);
      CalmClock(Next(k, evs[0]), evs[1..], i, r);
    }
  }

  /** An undisturbed SleepUntil with a finite delay never returns before its timestamp. */
  lemma SleepUntilNotEarly(k: K, timestamp: int, evs: seq<Event>, r: K)
    requires Inv(k) && Active(k) && !k.mode.hrt && k.kstate != Locked
    requires 0 < timestamp - k.ticks < WAIT_INFINITE
    requires Calm(SleepUntil(k, timestamp).0, evs, k.now.value, r)
    ensures var i := k.now.value; i < |r.tasks| && (!Asleep(r.tasks[i]) ==> r.ticks >= timestamp)
  {
    hide Core, Calm, TakenByTick;
    ActiveFacts(k);
    NapUntilKeeps(k, timestamp);
    PendingTiming(SleepUntil(k, timestamp).0, evs, k.now.value, r);
    CalmClock(SleepUntil(k, timestamp).0, evs, k.now.value, r);
  }

  /** A sleep without limit does not end in an undisturbed run. */
  lemma {:induction false} InfiniteStays(k: K, evs: seq<Event>, i: nat, r: K)
    requires Inv(k) && !k.mode.hrt && i < |k.tasks| && Calm(k, evs, i, r) && Busy(k.tasks[i]) && Infinite(k.tasks[i])
    requires !k.tasks[i].removePending && !IsWaiting(k.tasks[i])
    ensures i < |r.tasks| && Infinite(r.tasks[i])
    decreases |evs|
  {
    hide Core, Next, Enabled, SlotTask;
    if evs != [] {
      CoreShaped(k);
      NextKeeps(k, evs[0]);
      ClockSteps(k, evs[0]);
      if evs[0].TickBy? { TickOf(k, evs[0].c, i); InfiniteSlot(k.mode, k.tasks[i]); NextTick(k, evs[0]); }
      else { CalmStep(k, evs[0], i); }
      InfiniteStays(Next(k, evs[0]), evs[1..], i, r);
    }
  }

  lemma InfiniteSlot(m: Mode, t: Task)
    requires Infinite(t) && !t.removePending
    ensures var u := SlotTask(m, t, true, 1);
      u == t.(sleepPending := u.sleepPending, wakePending := u.wakePending, yieldPending := u.yieldPending)
  {
  }

  /** A timestamp that is as far away as the largest timeout is never reached: however many ticks pass in an
      undisturbed run, also more than it is away, the task does not wake. */
  lemma FarSleepNeverEnds(k: K, timestamp: int, evs: seq<Event>, r: K)
    requires Inv(k) && Active(k) && !k.mode.hrt && k.kstate != Locked && timestamp - k.ticks >= WAIT_INFINITE
    requires Calm(SleepUntil(k, timestamp).0, evs, k.now.value, r)
    ensures k.now.value < |r.tasks| && Asleep(r.tasks[k.now.value])
  {
    hide Core, Calm;
    ActiveFacts(k);
    NapUntilKeeps(k, timestamp);
    InfiniteStays(SleepUntil(k, timestamp).0, evs, k.now.value, r);
  }

  /** The current task stays current until a tick or an acting forced switch. */
  lemma StillNow(k: K, ev: Event)
    requires Inv(k) && Enabled(k, ev) && k.now.Some? && !ev.TickBy? && !ev.Start?
    requires ev.Force? ==> !Acts(k, ev.id)
    ensures Next(k, ev).now == k.now
  {
    hide Core;
    CoreShaped(k);
    if !ev.Force? { hide Next; CallsKeepNow(k, ev); }
  }
}
