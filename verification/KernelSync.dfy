/** Wait objects and sync objects keep the invariant: linking, unlinking, signals and timeouts. */
module KernelSync {
  import opened KernelTypes
  import opened KernelSpec
  import opened KernelInv

  lemma {:induction false} WithoutMembers(s: seq<nat>, i: nat)
    requires NoDup(s)
    ensures NoDup(Without(s, i))
    ensures forall x :: x in Without(s, i) <==> x in s && x != i
  {
    if s != [] {
      assert NoDup(s[1..]);
      assert s == [s[0]] + s[1..];
      if s[0] == i {
        assert i !in s[1..];
      } else {
        WithoutMembers(s[1..], i);
        var r := Without(s[1..], i);
        assert s[0] !in s[1..] && s[0] !in r;
        forall x ensures x in [s[0]] + r <==> x in s && x != i {}
      }
    }
  }

  lemma UnlinkWaits(k: K, i: nat, how: WaitState)
    requires WaitsInv(k) && i < |k.tasks| && IsWaiting(k.tasks[i])
    ensures WaitsInv(EndWait(k, i, how))
  {
    var s := k.tasks[i].wait.sync.value;
    var r := EndWait(k, i, how);
    WithoutMembers(WaitList(k, s), i);
    forall x: nat
      ensures WaitList(r, x) == if x == s then Without(WaitList(k, s), i) else WaitList(k, x)
    {}
    forall j: nat, x: nat | j < |r.tasks| ensures r.tasks[j].wait.sync == Some(x) <==> j in WaitList(r, x) {
      assert k.tasks[j].wait.sync == Some(x) <==> j in WaitList(k, x);
    }
    forall x: nat | WaitList(r, x) != [] ensures x in r.syncs {
      assert WaitList(r, x)[0] in WaitList(r, x);
      assert WaitList(k, x) != [];
    }
  }

  lemma EndWaitKeeps(k: K, i: nat, how: WaitState)
    requires Core(k) && i < |k.tasks|
    requires how == Signaled || how == TimedOut || how == Cancelled
    ensures Core(EndWait(k, i, how))
  {
    if IsWaiting(k.tasks[i]) {
      UnlinkWaits(k, i, how);
      ReplayEnd(k, i, how);
      EndWaitSlots(k, i, how);
      hide WaitsInv, Replay, SlotInv;
    }
  }

  lemma EndWaitSlots(k: K, i: nat, how: WaitState)
    requires Core(k) && i < |k.tasks| && IsWaiting(k.tasks[i])
    requires how == Signaled || how == TimedOut || how == Cancelled
    ensures forall j :: 0 <= j < |k.tasks| ==> SlotInv(EndWait(k, i, how), j)
  {
    hide WaitsInv, Replay, Distinct;
    var r := EndWait(k, i, how);
    assert SlotInv(k, i);
    forall j | 0 <= j < |r.tasks| ensures SlotInv(r, j) {
      if j != i { SlotFrame(k, r, j); }
    }
  }

  lemma ReplayEnd(k: K, i: nat, how: WaitState)
    requires Core(k) && i < |k.tasks| && IsWaiting(k.tasks[i])
    requires how == Signaled || how == TimedOut || how == Cancelled
    ensures Replay(EndWait(k, i, how).log) == Some(EndWait(k, i, how).strat)
    ensures Shaped(EndWait(k, i, how))
  {
    assert SlotInv(k, i);
    ReplayTell(k, WaitEnded(i, how));
  }

  lemma EndWaitAndWakeKeeps(k: K, i: nat, how: WaitState)
    requires Core(k) && i < |k.tasks| && IsWaiting(k.tasks[i])
    requires how == Signaled || how == TimedOut || how == Cancelled
    ensures Core(EndWaitAndWake(k, i, how))
  {
    EndWaitKeeps(k, i, how);
    hide WaitsInv, Distinct, Replay;
    var k1 := EndWait(k, i, how);
    assert SlotInv(k, i) && SlotInv(k1, i);
    SetKeeps(k1, i, WakeTask(k1.tasks[i].(wait := k1.tasks[i].wait.(time := 0))));
  }

  lemma TickWaiterKeeps(k: K, i: nat, e: int)
    requires Core(k) && i < |k.tasks| && IsWaiting(k.tasks[i]) && e >= 0
    ensures Core(TickWaiter(k, i, e))
  {
    hide WaitsInv, Distinct, Replay, EndWaitAndWake;
    assert SlotInv(k, i);
    var w := k.tasks[i].wait;
    if w.time != WAIT_INFINITE {
      if w.time - e <= 0 {
        EndWaitAndWakeKeeps(k, i, TimedOut);
      } else {
        SetKeeps(k, i, k.tasks[i].(wait := w.(time := w.time - e)));
      }
    }
  }

  ghost predicate AllWaiting(k: K, ws: seq<nat>) {
    InRange(ws, |k.tasks|) && NoDup(ws) && forall x :: x in ws ==> IsWaiting(k.tasks[x])
  }

  /** Ending one wait leaves every other wait as it was. */
  lemma TickWaiterFrame(k: K, i: nat, e: int)
    requires i < |k.tasks|
    ensures forall j :: 0 <= j < |k.tasks| && j != i ==> TickWaiter(k, i, e).tasks[j] == k.tasks[j]
  {
  }

  lemma TailWaiting(k: K, ws: seq<nat>)
    requires AllWaiting(k, ws) && ws != []
    ensures AllWaiting(k, ws[1..]) && ws[0] in ws && ws[0] !in ws[1..] && IsWaiting(k.tasks[ws[0]])
  {
    assert ws[0] in ws && forall x :: x in ws[1..] ==> x in ws;
  }

  lemma TickWaitersKeeps(k: K, ws: seq<nat>, e: int)
    requires Core(k) && AllWaiting(k, ws) && e >= 0
    ensures Core(TickWaiters(k, ws, e))
    decreases |ws|
  {
    hide Core, TickWaiter;
    if ws != [] {
      TailWaiting(k, ws);
      TickWaiterKeeps(k, ws[0], e);
      TickWaiterFrame(k, ws[0], e);
      TickWaitersKeeps(TickWaiter(k, ws[0], e), ws[1..], e);
    }
  }

  lemma WaitListWaiting(k: K, s: nat)
    requires Core(k)
    ensures AllWaiting(k, WaitList(k, s))
  {
    forall x | x in WaitList(k, s) ensures x < |k.tasks| && IsWaiting(k.tasks[x]) {
      assert InRange(WaitList(k, s), |k.tasks|);
      assert k.tasks[x].wait.sync == Some(s);
    }
  }

  lemma TickSyncKeeps(k: K, s: nat, e: int)
    requires Core(k) && e >= 0
    ensures Core(TickSync(k, s, e))
  {
    WaitListWaiting(k, s);
    TickWaitersKeeps(k, WaitList(k, s), e);
    DropSyncKeeps(TickWaiters(k, WaitList(k, s), e), s);
  }

  /** A sync object without waiters may be unlinked from the tick list. */
  lemma DropSyncKeeps(k: K, s: nat)
    requires Core(k)
    ensures WaitList(k, s) == [] ==> Core(k.(syncs := Without(k.syncs, s)))
  {
    hide Replay, Distinct;
    WithoutMembers(k.syncs, s);
    var r := k.(syncs := Without(k.syncs, s));
    assert forall x: nat :: WaitList(r, x) == WaitList(k, x);
    forall j | 0 <= j < |r.tasks| ensures SlotInv(r, j) { SlotFrame(k, r, j); }
  }

  lemma TickSyncsKeeps(k: K, ss: seq<nat>, e: int)
    requires Core(k) && e >= 0
    ensures Core(TickSyncs(k, ss, e))
    decreases |ss|
  {
    hide SlotInv, WaitsInv, Distinct, Replay, TickSync;
    if ss != [] {
      TickSyncKeeps(k, ss[0], e);
      TickSyncsKeeps(TickSync(k, ss[0], e), ss[1..], e);
    }
  }

  // ---- what one tick does to each wait --------------------------------------------------------

  /** The tick seen by one slot: its timeout advances, and it is woken once the timeout is over. */
  function TickWait(t: Task, e: int): Task {
    if !IsWaiting(t) || t.wait.time == WAIT_INFINITE then t
    else if t.wait.time - e <= 0 then WakeTask(t.(wait := Wait(None, 0, TimedOut)))
    else t.(wait := t.wait.(time := t.wait.time - e))
  }

  /** The parts of the ledger a sync tick does not touch. */
  ghost predicate SameTasks(k: K, r: K) {
    r.strat.all == k.strat.all && r.strat.filed == k.strat.filed
  }

  lemma TickWaiterIs(k: K, i: nat, e: int)
    requires i < |k.tasks| && IsWaiting(k.tasks[i]) && k.tasks[i].wait.state == Waiting
    ensures TickWaiter(k, i, e).tasks == k.tasks[i := TickWait(k.tasks[i], e)]
    ensures SameTasks(k, TickWaiter(k, i, e))
  {
  }

  lemma {:induction false} TickWaitersEach(k: K, ws: seq<nat>, e: int)
    requires Core(k) && AllWaiting(k, ws) && e >= 0
    ensures SameTasks(k, TickWaiters(k, ws, e))
    ensures forall j :: 0 <= j < |k.tasks| ==>
              TickWaiters(k, ws, e).tasks[j] == if j in ws then TickWait(k.tasks[j], e) else k.tasks[j]
    decreases |ws|
  {
    if ws != [] {
      TailWaiting(k, ws);
      assert SlotInv(k, ws[0]);
      hide WaitsInv, Distinct, Replay, TickWaiter, SlotInv;
      TickWaiterKeeps(k, ws[0], e);
      TickWaiterIs(k, ws[0], e);
      var k1 := TickWaiter(k, ws[0], e);
      TickWaitersEach(k1, ws[1..], e);
      forall j | 0 <= j < |k.tasks|
        ensures TickWaiters(k, ws, e).tasks[j] == if j in ws then TickWait(k.tasks[j], e) else k.tasks[j]
      {
        assert j in ws <==> j == ws[0] || j in ws[1..];
      }
    }
  }

  lemma {:induction false} TickSyncsEach(k: K, ss: seq<nat>, e: int)
    requires Core(k) && NoDup(ss) && e >= 0
    ensures SameTasks(k, TickSyncs(k, ss, e))
    ensures forall j :: 0 <= j < |k.tasks| ==>
              TickSyncs(k, ss, e).tasks[j] ==
              if IsWaiting(k.tasks[j]) && k.tasks[j].wait.sync.value in ss then TickWait(k.tasks[j], e)
              else k.tasks[j]
    decreases |ss|
  {
    hide Core, TickSync, TickWait;
    if ss != [] {
      var s := ss[0];
      TickSyncKeeps(k, s, e);
      TickSyncIs(k, s, e);
      TickWaitLinks(e);
      var k1 := TickSync(k, s, e);
      assert NoDup(ss[1..]) && s !in ss[1..];
      TickSyncsEach(k1, ss[1..], e);
      assert forall x :: x in ss <==> x == s || x in ss[1..];
    }
  }

  /** One sync object gives one timeout step to each of its waiters. */
  lemma TickSyncIs(k: K, s: nat, e: int)
    requires Core(k) && e >= 0
    ensures Shaped(k) && SameTasks(k, TickSync(k, s, e))
    ensures forall j :: 0 <= j < |k.tasks| ==>
      TickSync(k, s, e).tasks[j] == if k.tasks[j].wait.sync == Some(s) then TickWait(k.tasks[j], e) else k.tasks[j]
  {
    WaitListWaiting(k, s);
    forall j: nat | j < |k.tasks| ensures j in WaitList(k, s) <==> k.tasks[j].wait.sync == Some(s) {}
    CoreShaped(k);
    hide Core, TickWait;
    TickWaitersEach(k, WaitList(k, s), e);
  }

  /** A waiter stays on its object or leaves the list. */
  lemma TickWaitLinks(e: int)
    ensures forall t: Task :: TickWait(t, e).wait.sync == t.wait.sync || !IsWaiting(TickWait(t, e))
  {
  }

  /** A tick gives every waiting slot exactly one timeout step and leaves all others alone. */
  lemma SyncTick(k: K, e: int)
    requires Core(k) && e >= 0
    ensures Core(UpdateSyncObjects(k, e)) && SameTasks(k, UpdateSyncObjects(k, e))
    ensures forall j :: 0 <= j < |k.tasks| ==> UpdateSyncObjects(k, e).tasks[j] == TickWait(k.tasks[j], e)
  {
    forall j: nat | j < |k.tasks| && IsWaiting(k.tasks[j])
      ensures k.mode.sync && k.tasks[j].wait.sync.value in k.syncs
    {
      assert SlotInv(k, j) && j in WaitList(k, k.tasks[j].wait.sync.value);
    }
    if k.mode.sync {
      TickSyncsKeeps(k, k.syncs, e);
      TickSyncsEach(k, k.syncs, e);
    }
  }
}
