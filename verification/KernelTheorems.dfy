/** What the invariant means for every run of the kernel. */
module KernelTheorems {
  import opened KernelTypes
  import opened KernelSpec
  import opened KernelInv
  import opened KernelRuns
  import opened KernelCalls

  // ---- runs -----------------------------------------------------------------------------------

  /** The mode combinations the compile-time assertions admit. */
  predicate ModeOk(m: Mode) { !(m.hrt && m.timeslice) && !(m.hrt && m.tickless) }

  /** `evs`, each enabled where it occurs, lead from `k` to `r`. */
  ghost predicate Leads(k: K, evs: seq<Event>, r: K)
    decreases |evs|
  {
    if evs == [] then r == k
    else Shaped(k) && Enabled(k, evs[0]) && Leads(Next(k, evs[0]), evs[1..], r)
  }

  lemma LeadsKeeps(k: K, evs: seq<Event>, r: K)
    requires Inv(k) && Leads(k, evs, r)
    ensures Inv(r)
    decreases |evs|
  {
    if evs != [] {
      NextKeeps(k, evs[0]);
      var k1 := Next(k, evs[0]);
      hide Inv, Next, Enabled;
      LeadsKeeps(k1, evs[1..], r);
    }
  }

  lemma LeadsStep(k: K, ev: Event, evs: seq<Event>, r: K)
    requires Shaped(k) && Enabled(k, ev) && Leads(Next(k, ev), evs, r)
    ensures Leads(k, [ev] + evs, r)
  {
    assert ([ev] + evs)[1..] == evs;
  }

  lemma NewInv(mode: Mode, n: nat)
    requires ModeOk(mode) && n > 0
    ensures Inv(NewKernel(mode, n))
  {
  }

  /** Every state a run can reach from a new kernel satisfies the invariant. */
  lemma RunsKeep(mode: Mode, n: nat, evs: seq<Event>, r: K)
    requires ModeOk(mode) && n > 0 && Leads(NewKernel(mode, n), evs, r)
    ensures Inv(r)
  {
    LeadsKeeps(NewKernel(mode, n), evs, r);
  }

  // ---- runnable-set agreement -----------------------------------------------------------------

  /** In every reachable state the strategy's runnable set is exactly the bound tasks that are awake
      or whose sleep was not delivered yet, each filed under its effective weight; once started only
      the current task can be in between; and the whole history of calls obeyed the contract. */
  lemma RunnableAgreement(mode: Mode, n: nat, evs: seq<Event>, r: K, i: nat)
    requires ModeOk(mode) && n > 0 && Leads(NewKernel(mode, n), evs, r) && i < |r.tasks|
    ensures i in r.strat.all <==> Busy(r.tasks[i])
    ensures i in r.strat.filed <==> Busy(r.tasks[i]) && (!Asleep(r.tasks[i]) || r.tasks[i].sleepPending)
    ensures i in r.strat.filed ==> r.strat.filed[i] == EffWeight(r.tasks[i])
    ensures r.tasks[i].sleepPending && r.now.Some? ==> r.now == Some(i)
    ensures Replay(r.log) == Some(r.strat)
  {
    RunsKeep(mode, n, evs, r);
    assert SlotInv(r, i);
  }

  lemma {:induction false} ReplayPrefix(log: seq<Note>, n: nat)
    requires Replay(log).Some? && n <= |log|
    ensures Replay(log[..n]).Some?
    ensures n < |log| ==> Legal(Replay(log[..n]).value, log[n])
                          && Replay(log[..n + 1]) == Some(Post(Replay(log[..n]).value, log[n]))
    decreases |log|
  {
    if n == |log| {
      assert log[..n] == log;
    } else {
      assert log[..n + 1][..n] == log[..n];
      if n + 1 == |log| {
        assert log[..n + 1] == log;
      } else {
        ReplayPrefix(log[..|log| - 1], n);
        assert log[..|log| - 1][..n] == log[..n];
        assert log[..|log| - 1][..n + 1] == log[..n + 1];
      }
    }
  }

  /** A note that puts slot `i` into the runnable set, or takes it out. */
  predicate Files(n: Note, i: nat) { n.i == i && (n.Woke? || n.Added?) }
  predicate Unfiles(n: Note, i: nat) { n.i == i && (n.Slept? || n.Removed?) }

  lemma {:induction false} FiledSpan(log: seq<Note>, i: nat, a: nat, b: nat)
    requires Replay(log).Some? && a <= b <= |log|
    ensures Replay(log[..a]).Some? && Replay(log[..b]).Some?
    ensures i !in Replay(log[..a]).value.filed && (forall c :: a <= c < b ==> !Files(log[c], i))
            ==> i !in Replay(log[..b]).value.filed
    ensures i in Replay(log[..a]).value.filed && (forall c :: a <= c < b ==> !Unfiles(log[c], i))
            ==> i in Replay(log[..b]).value.filed
    decreases b - a
  {
    ReplayPrefix(log, a);
    ReplayPrefix(log, b);
    if a < b {
      ReplayPrefix(log, b - 1);
      FiledSpan(log, i, a, b - 1);
    }
  }

  /** In every run OnTaskSleep and OnTaskWake strictly alternate for each task: between two of one kind
      lies one of the other, or the slot was freed or bound anew; and the last of them tells whether the
      task is runnable now. */
  lemma SleepWakeAlternate(mode: Mode, n: nat, evs: seq<Event>, r: K, i: nat, a: nat, b: nat)
    requires ModeOk(mode) && n > 0 && Leads(NewKernel(mode, n), evs, r)
    requires a < b < |r.log| && r.log[a].i == i && r.log[b].i == i
    ensures r.log[a].Slept? && r.log[b].Slept? ==> exists c :: a < c < b && Files(r.log[c], i)
    ensures r.log[a].Woke? && r.log[b].Woke? ==> exists c :: a < c < b && Unfiles(r.log[c], i)
    ensures (forall c :: b < c < |r.log| ==> !Files(r.log[c], i) && !Unfiles(r.log[c], i)) ==>
      (Files(r.log[b], i) ==> i in r.strat.filed) && (Unfiles(r.log[b], i) ==> i !in r.strat.filed)
  {
    hide Leads, Inv, Replay, Legal, Post;
    RunReplays(mode, n, evs, r);
    Alternates(r.log, i, a, b);
    if forall c :: b < c < |r.log| ==> !Files(r.log[c], i) && !Unfiles(r.log[c], i) { LastFiles(r.log, i, b); }
  }

  lemma RunReplays(mode: Mode, n: nat, evs: seq<Event>, r: K)
    requires ModeOk(mode) && n > 0 && Leads(NewKernel(mode, n), evs, r)
    ensures Replay(r.log) == Some(r.strat)
  {
    hide Leads;
    RunsKeep(mode, n, evs, r);
  }

  lemma Alternates(log: seq<Note>, i: nat, a: nat, b: nat)
    requires Replay(log).Some? && a < b < |log| && log[a].i == i && log[b].i == i
    ensures log[a].Slept? && log[b].Slept? ==> exists c :: a < c < b && Files(log[c], i)
    ensures log[a].Woke? && log[b].Woke? ==> exists c :: a < c < b && Unfiles(log[c], i)
  {
    ReplayPrefix(log, a);
    ReplayPrefix(log, b);
    FiledSpan(log, i, a + 1, b);
  }

  lemma LastFiles(log: seq<Note>, i: nat, b: nat)
    requires Replay(log).Some? && b < |log| && forall c :: b < c < |log| ==> !Files(log[c], i) && !Unfiles(log[c], i)
    ensures Files(log[b], i) ==> i in Replay(log).value.filed
    ensures Unfiles(log[b], i) ==> i !in Replay(log).value.filed
  {
    ReplayPrefix(log, b);
    FiledSpan(log, i, b + 1, |log|);
    assert log[..|log|] == log;
  }

  // ---- wait protocol --------------------------------------------------------------------------

  lemma {:induction false} WaitSpan(log: seq<Note>, i: nat, a: nat, b: nat)
    requires Replay(log).Some? && a <= b <= |log|
    ensures Replay(log[..a]).Some? && Replay(log[..b]).Some?
    ensures i !in Replay(log[..a]).value.waiting && (forall c :: a <= c < b ==> log[c] != WaitBegun(i))
            ==> i !in Replay(log[..b]).value.waiting
    ensures i in Replay(log[..a]).value.waiting
            && (forall c :: a <= c < b ==> !(log[c].WaitEnded? && log[c].i == i))
            ==> i in Replay(log[..b]).value.waiting
    decreases b - a
  {
    ReplayPrefix(log, a);
    ReplayPrefix(log, b);
    if a < b {
      ReplayPrefix(log, b - 1);
      WaitSpan(log, i, a, b - 1);
    }
  }

  /** In every run each wait ends exactly once: between two beginnings there is an end, by a signal, a
      timeout or a cancellation, between two ends there is a beginning, and a wait that was begun and not
      ended is under way now. */
  lemma WaitsEndOnce(mode: Mode, n: nat, evs: seq<Event>, r: K, i: nat, a: nat, b: nat)
    requires ModeOk(mode) && n > 0 && Leads(NewKernel(mode, n), evs, r)
    requires a < b < |r.log| && r.log[a].i == i && r.log[b].i == i
    ensures r.log[a].WaitBegun? && r.log[b].WaitBegun? ==>
      exists c :: a < c < b && r.log[c].WaitEnded? && r.log[c].i == i && r.log[c].how in {Signaled, TimedOut, Cancelled}
    ensures r.log[a].WaitEnded? && r.log[b].WaitEnded? ==> exists c :: a < c < b && r.log[c] == WaitBegun(i)
    ensures r.log[b].WaitBegun? && (forall c :: b < c < |r.log| ==> !(r.log[c].WaitEnded? && r.log[c].i == i)) ==>
      i < |r.tasks| && IsWaiting(r.tasks[i])
  {
    hide Leads, Inv, Replay, Legal, Post;
    RunReplays(mode, n, evs, r);
    WaitsAlternate(r.log, i, a, b);
    if r.log[b].WaitBegun? && forall c :: b < c < |r.log| ==> !(r.log[c].WaitEnded? && r.log[c].i == i) {
      LastWaits(r.log, i, b);
      RunWaiting(mode, n, evs, r, i);
    }
  }

  lemma WaitsAlternate(log: seq<Note>, i: nat, a: nat, b: nat)
    requires Replay(log).Some? && a < b < |log| && log[a].i == i && log[b].i == i
    ensures log[a].WaitBegun? && log[b].WaitBegun? ==>
      exists c :: a < c < b && log[c].WaitEnded? && log[c].i == i && log[c].how in {Signaled, TimedOut, Cancelled}
    ensures log[a].WaitEnded? && log[b].WaitEnded? ==> exists c :: a < c < b && log[c] == WaitBegun(i)
  {
    ReplayPrefix(log, a);
    ReplayPrefix(log, b);
    WaitSpan(log, i, a + 1, b);
    if c :| a < c < b && log[c].WaitEnded? && log[c].i == i { ReplayPrefix(log, c); }
  }

  lemma LastWaits(log: seq<Note>, i: nat, b: nat)
    requires Replay(log).Some? && b < |log| && log[b] == WaitBegun(i)
    requires forall c :: b < c < |log| ==> !(log[c].WaitEnded? && log[c].i == i)
    ensures i in Replay(log).value.waiting
  {
    ReplayPrefix(log, b);
    WaitSpan(log, i, b + 1, |log|);
    assert log[..|log|] == log;
  }

  lemma RunWaiting(mode: Mode, n: nat, evs: seq<Event>, r: K, i: nat)
    requires ModeOk(mode) && n > 0 && Leads(NewKernel(mode, n), evs, r) && i in r.strat.waiting
    ensures i < |r.tasks| && IsWaiting(r.tasks[i])
  {
    hide Leads;
    RunsKeep(mode, n, evs, r);
    assert i in r.strat.all && SlotInv(r, i);
  }

  /** In every reachable state a task is linked into the list of a sync object exactly while it
      waits on it, once, asleep without limit, and with the object registered for ticks. */
  lemma WaitersAreLinked(mode: Mode, n: nat, evs: seq<Event>, r: K, i: nat, s: nat)
    requires ModeOk(mode) && n > 0 && Leads(NewKernel(mode, n), evs, r) && i < |r.tasks|
    ensures r.tasks[i].wait.sync == Some(s) <==> i in WaitList(r, s)
    ensures NoDup(WaitList(r, s))
    ensures i in WaitList(r, s) ==> Infinite(r.tasks[i]) && r.tasks[i].wait.state == Waiting && s in r.syncs
    ensures i in r.strat.waiting <==> IsWaiting(r.tasks[i])
  {
    RunsKeep(mode, n, evs, r);
    assert SlotInv(r, i);
    if i in WaitList(r, s) { assert WaitList(r, s) != []; }
  }
}
