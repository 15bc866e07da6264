/** A kernel with the fixed-priority strategy in which one task keeps the CPU for ever although a peer of the same
    priority is awake: it restores its weight, as every unlock of a mutex does, once between two ticks. */
module Starvation {
  import opened KernelTypes
  import opened KernelSpec
  import opened KernelInv
  import opened KernelRuns
  import opened KernelCalls
  import opened KernelTheorems
  import opened Rotation
  import opened FixedPriority
  import opened PriorityKernel

  // ---- a kernel in which nothing but the scheduler happens ------------------------------------

  /** Every task is awake, and no mode gives a tick anything to do but to select a task. */
  ghost predicate Steady(k: K) {
    && !k.mode.hrt && !k.mode.sync && !k.mode.timeslice && k.fsm == Switching && k.kstate == Running
    && forall j :: 0 <= j < |k.tasks| ==> !Asleep(k.tasks[j]) && !k.tasks[j].yieldPending
  }

  lemma {:induction false} SteadySweep(s: Sweep, i: nat)
    requires Steady(s.k) && !s.k.mode.tickless && i <= |s.k.tasks|
    ensures SweepFrom(s, i, 1) == s
    decreases |s.k.tasks| - i
  {
    if i < |s.k.tasks| {
      assert s.k.tasks[i := s.k.tasks[i]] == s.k.tasks;
      assert TickSlot(s.k, i, 1) == s.k;
      hide TickSlot;
      SteadySweep(s, i + 1);
    }
  }

  /** A tick of such a kernel that selects the current task again only moves the clock. */
  lemma SteadyTick(k: K, c: Choice)
    requires Inv(k) && Steady(k) && !k.mode.tickless && Fits(k, c) && k.now.Some? && c.next == k.now
    ensures Shaped(k) && TickBody(k, 1) == k.(ticks := k.ticks + 1) && Tick(k, 1, c) == k.(ticks := k.ticks + 1)
  {
    ModeFacts(k);
    hide Inv, SweepFrom;
    SteadySweep(Sweep(k.(ticks := k.ticks + 1), 1), 0);
  }

  // ---- one unlock and one tick ----------------------------------------------------------------

  /** Task `u` runs with its own weight `w`, the highest of all; on the level of `w` it has a peer, is the last
      in the list and was selected last. `ops` is what the strategy saw so far. */
  ghost predicate Starving(k: K, max: nat, ops: seq<Op>, u: nat) {
    && Inv(k) && Steady(k) && !k.mode.tickless && k.mode.inherit
    && k.now.Some? && k.now.value < |k.tasks| && Find(k, u) == k.now && k.tasks[k.now.value].rtWeight == NO_WEIGHT
    && Notes(ops) == k.log && InLevelsAll(ops, max) && Replay(Notes(ops)) == Some(k.strat)
    && LastOfItsLevel(Played(max, ops), k.strat, k.now.value, EffWeight(k.tasks[k.now.value]))
  }

  ghost predicate LastOfItsLevel(f: Fp, g: Ledger, a: nat, p: int) {
    && 0 <= p < |f.lists| == |f.prev| && a in g.filed && g.filed[a] == p
    && (forall j :: j in g.filed ==> g.filed[j] <= p)
    && |f.lists[p]| >= 2 && f.lists[p][|f.lists[p]| - 1] == a && f.prev[p] == Some(a)
  }

  /** The note of the unlock. */
  ghost function Unlock(k: K): Note
    requires k.now.Some? && k.now.value < |k.tasks|
  {
    var w := EffWeight(k.tasks[k.now.value]);
    Reweighed(k.now.value, w, w)
  }

  /** Restoring the weight of a task that was not boosted changes nothing but the history. */
  lemma UnlockIs(k: K, u: nat)
    requires Inv(k) && k.mode.inherit && k.now.Some? && k.now.value < |k.tasks| && Find(k, u) == k.now
    requires k.tasks[k.now.value].rtWeight == NO_WEIGHT && k.now.value in k.strat.filed
    ensures Shaped(k) && RestoreWeight(k, u, None) == k.(log := k.log + [Unlock(k)])
  {
    var i := k.now.value;
    assert SlotInv(k, i);
    assert k.tasks[i := k.tasks[i]] == k.tasks;
    assert k.strat.filed[i := EffWeight(k.tasks[i])] == k.strat.filed;
    hide Core, FindFrom;
    ModeFacts(k);
  }

  lemma NotesSnoc(ops: seq<Op>, n: Note)
    ensures Notes(ops + [Told(n)]) == Notes(ops) + [n] && Notes(ops + [Told(n)] + [Pick]) == Notes(ops) + [n]
  {
    var a, b := ops + [Told(n)], ops + [Told(n)] + [Pick];
    assert a[..|a| - 1] == ops && b[..|b| - 1] == a;
  }

  lemma PlayedSnoc(max: nat, ops: seq<Op>, op: Op)
    requires InLevelsAll(ops + [op], max) && InLevelsAll(ops, max)
    requires Replay(Notes(ops)).Some? && Replay(Notes(ops + [op])).Some?
    requires Allowed(Played(max, ops), Replay(Notes(ops)).value, op)
    ensures Played(max, ops + [op]) == Step(Played(max, ops), Replay(Notes(ops)).value, op).0
  {
    hide Step, Replay, FpInv;
    assert (ops + [op])[..|ops + [op]| - 1] == ops;
  }

  /** A change of weight to the same level leaves the ledger as it is. */
  lemma RoundNotes(max: nat, ops: seq<Op>, g: Ledger, a: nat, p: nat)
    requires InLevelsAll(ops, max) && Replay(Notes(ops)) == Some(g)
    requires a in g.filed && g.filed[a] == p < max && a in g.all
    ensures var one := ops + [Told(Reweighed(a, p, p))];
      && InLevelsAll(one, max) && InLevelsAll(one + [Pick], max)
      && Replay(Notes(one)) == Some(g) && Replay(Notes(one + [Pick])) == Some(g)
  {
    var n := Reweighed(a, p, p);
    NotesSnoc(ops, n);
    var l := Notes(ops) + [n];
    assert l[..|l| - 1] == Notes(ops);
    assert g.filed[a := p] == g.filed;
  }

  /** What the strategy sees of one round leaves it where it was, and it answers with the same task. */
  lemma RoundPlays(max: nat, ops: seq<Op>, g: Ledger, a: nat, p: nat)
    requires InLevelsAll(ops, max) && Replay(Notes(ops)) == Some(g) && LastOfItsLevel(Played(max, ops), g, a, p)
    ensures var one := ops + [Told(Reweighed(a, p, p))];
      && InLevelsAll(one, max) && InLevelsAll(one + [Pick], max)
      && Replay(Notes(one)) == Some(g) && Replay(Notes(one + [Pick])) == Some(g)
      && Played(max, one + [Pick]) == Played(max, ops)
      && Answers(max, one) == Choice(Some(a), Played(max, ops).lists[p][0])
  {
    var f, n := Played(max, ops), Reweighed(a, p, p);
    var one := ops + [Told(n)];
    assert a in g.all;
    RoundNotes(max, ops, g, a, p);
    RelinkedOnce(f, g, a, p);
    RelinkedFirst(f, g, a, p);
    hide FpInv, GetNext, GetFirst, Hear, Replay, Notes, Played, InLevelsAll, Legal, Post;
    PlayedSnoc(max, ops, Told(n));
    PlayedSnoc(max, one, Pick);
  }

  lemma RelinkedFirst(f: Fp, g: Ledger, a: nat, p: nat)
    requires FpInv(f, g) && LastOfItsLevel(f, g, a, p)
    ensures Allowed(f, g, Told(Reweighed(a, p, p))) && f.lists[p] != []
    ensures Step(f, g, Told(Reweighed(a, p, p))).1 == g
    ensures var f1 := Step(f, g, Told(Reweighed(a, p, p))).0;
      (ReadyLevels(f1, g); GetFirst(f1) == f.lists[p][0])
  {
    hide NoDup;
    RelinkedNote(f, g, a, p);
    var l := LevelAt(f, p);
    RelinkedTailRepeats(l, a);
    var f1 := PutLevel(f, p, Relinked(l, a));
    hide Relinked, LevelOk;
    TopLevel(f1, g, p);
  }

  /** The answer of the strategy after the unlock. */
  ghost function Answer(k: K, max: nat, ops: seq<Op>, u: nat): Choice
    requires Starving(k, max, ops, u)
  {
    RoundPlays(max, ops, k.strat, k.now.value, EffWeight(k.tasks[k.now.value]));
    Answers(max, ops + [Told(Unlock(k))])
  }

  lemma AnswerIs(k: K, max: nat, ops: seq<Op>, u: nat)
    requires Starving(k, max, ops, u)
    ensures LegalChoice(k.strat, Answer(k, max, ops, u)) && Answer(k, max, ops, u).next == k.now
  {
    RoundPlays(max, ops, k.strat, k.now.value, EffWeight(k.tasks[k.now.value]));
    hide Inv, Answers, Played, Replay, LastOfItsLevel, InLevelsAll;
    AnswersAreLegal(max, ops + [Told(Unlock(k))]);
  }

  /** The unlock. */
  lemma StarvingUnlock(k: K, max: nat, ops: seq<Op>, u: nat)
    requires Starving(k, max, ops, u)
    ensures var k1 := k.(log := k.log + [Unlock(k)]);
      Shaped(k) && Inv(k1) && Steady(k1) && Enabled(k, Unboost(u, None)) && Next(k, Unboost(u, None)) == k1
  {
    hide Inv, Played, Replay, InLevelsAll, Answers;
    UnlockIs(k, u);
    UnboostKeeps(k, u, None);
    ModeFacts(k);
  }

  /** The tick. */
  lemma StarvingTick(k: K, c: Choice)
    requires Inv(k) && Steady(k) && !k.mode.tickless && k.now.Some? && LegalChoice(k.strat, c) && c.next == k.now
    ensures var r := k.(ticks := k.ticks + 1);
      Shaped(k) && Enabled(k, TickBy(1, c)) && Next(k, TickBy(1, c)) == r && Inv(r)
  {
    FirstInPool(k, c);
    hide Inv;
    SteadyTick(k, c);
    hide TickBody, Tick;
    TickKeeps(k, 1, c);
  }

  /** One unlock and one tick with the strategy's answer: the same task runs, and everything is as before. */
  lemma StarvingRound(k: K, max: nat, ops: seq<Op>, u: nat)
    requires Starving(k, max, ops, u)
    ensures var k1 := k.(log := k.log + [Unlock(k)]);
      Starving(k1.(ticks := k.ticks + 1), max, ops + [Told(Unlock(k))] + [Pick], u)
  {
    hide Inv, Answers, Played, Replay, LastOfItsLevel, InLevelsAll, Next, Enabled, Answer, Notes, Shaped, LegalChoice,
      FindFrom, EffWeight;
    StarvingFacts(k, max, ops, u);
    var a, n := k.now.value, Unlock(k);
    RoundPlays(max, ops, k.strat, a, EffWeight(k.tasks[a]));
    StarvingUnlock(k, max, ops, u);
    AnswerIs(k, max, ops, u);
    var k1 := k.(log := k.log + [n]);
    StarvingTick(k1, Answer(k, max, ops, u));
    NotesSnoc(ops, n);
    SameNames(k, k1.(ticks := k.ticks + 1), u);
    LevelRound(max, ops, ops + [Told(n)] + [Pick], k.strat, a, EffWeight(k.tasks[a]));
  }

  lemma LevelRound(max: nat, ops: seq<Op>, more: seq<Op>, g: Ledger, a: nat, w: int)
    requires InLevelsAll(ops, max) && Replay(Notes(ops)) == Some(g) && LastOfItsLevel(Played(max, ops), g, a, w)
    requires InLevelsAll(more, max) && Replay(Notes(more)) == Some(g) && Played(max, more) == Played(max, ops)
    ensures LastOfItsLevel(Played(max, more), g, a, w)
  {
  }

  lemma FirstInPool(k: K, c: Choice)
    requires Inv(k) && LegalChoice(k.strat, c) && c.next.Some?
    ensures Fits(k, c)
  {
  }

  lemma SameNames(k: K, r: K, u: nat)
    requires r.tasks == k.tasks
    ensures Find(r, u) == Find(k, u)
  {
  }

  // ---- any number of them ---------------------------------------------------------------------

  /** `n` unlocks, each followed by a tick. */
  function UnlockRounds(u: nat, c: Choice, n: nat): seq<Event> {
    if n == 0 then [] else [Unboost(u, None), TickBy(1, c)] + UnlockRounds(u, c, n - 1)
  }

  /** For every number of rounds of an unlock and a tick in which the strategy is asked: the task keeps the CPU,
      and its peers stay awake and runnable without ever getting it. The answer is the strategy's own in every
      round, for it is the same from round to round. */
  lemma {:induction false} UnlockingStarves(k: K, max: nat, ops: seq<Op>, u: nat, n: nat) returns (r: K)
    requires Starving(k, max, ops, u)
    ensures Leads(k, UnlockRounds(u, Answer(k, max, ops, u), n), r) && Answer(k, max, ops, u).next == k.now
    ensures r.now == k.now && r.tasks == k.tasks && r.strat == k.strat && r.ticks == k.ticks + n
    ensures EffWeight(k.tasks[k.now.value]) >= 0
    ensures Starving(r, max, ops + Relinking(k.now.value, EffWeight(k.tasks[k.now.value]), n), u)
    ensures Answer(r, max, ops + Relinking(k.now.value, EffWeight(k.tasks[k.now.value]), n), u) ==
      Answer(k, max, ops, u)
    decreases n
  {
    hide Starving, Answer, Enabled, Next, Leads, Inv, Shaped, LegalChoice, Steady, EffWeight, Unlock;
    StarvingFacts(k, max, ops, u);
    AnswerIs(k, max, ops, u);
    var c, a, w := Answer(k, max, ops, u), k.now.value, EffWeight(k.tasks[k.now.value]);
    if n == 0 {
      r := k;
      assert ops + Relinking(a, w, 0) == ops;
      NoLead(k);
    } else {
      StarvingRound(k, max, ops, u);
      StarvingUnlock(k, max, ops, u);
      SameAnswer(k, max, ops, u);
      var k1 := k.(log := k.log + [Unlock(k)]);
      StarvingTick(k1, c);
      var k2, more := k1.(ticks := k.ticks + 1), ops + [Told(Unlock(k))] + [Pick];
      r := UnlockingStarves(k2, max, more, u, n - 1);
      var rest := UnlockRounds(u, c, n - 1);
      LeadsStep(k1, TickBy(1, c), rest, r);
      LeadsStep(k, Unboost(u, None), [TickBy(1, c)] + rest, r);
      assert [Unboost(u, None)] + ([TickBy(1, c)] + rest) == UnlockRounds(u, c, n);
      RoundOps(k, ops, n);
    }
  }

  lemma RoundOps(k: K, ops: seq<Op>, n: nat)
    requires n > 0 && k.now.Some? && k.now.value < |k.tasks| && EffWeight(k.tasks[k.now.value]) >= 0
    ensures var a, w := k.now.value, EffWeight(k.tasks[k.now.value]);
      ops + [Told(Unlock(k))] + [Pick] + Relinking(a, w, n - 1) == ops + Relinking(a, w, n)
  {
  }

  lemma NoLead(k: K)
    ensures Leads(k, [], k)
  {
  }

  lemma StarvingFacts(k: K, max: nat, ops: seq<Op>, u: nat)
    requires Starving(k, max, ops, u)
    ensures k.now.Some? && k.now.value < |k.tasks| && EffWeight(k.tasks[k.now.value]) >= 0 && !k.mode.tickless
  {
  }

  /** The answer does not change from round to round. */
  lemma SameAnswer(k: K, max: nat, ops: seq<Op>, u: nat)
    requires Starving(k, max, ops, u)
    requires Starving(k.(log := k.log + [Unlock(k)], ticks := k.ticks + 1), max, ops + [Told(Unlock(k))] + [Pick], u)
    ensures Answer(k.(log := k.log + [Unlock(k)], ticks := k.ticks + 1), max, ops + [Told(Unlock(k))] + [Pick], u) ==
      Answer(k, max, ops, u)
  {
    hide Inv, Played, Replay, InLevelsAll, Answers, Steady;
    var a, w := k.now.value, EffWeight(k.tasks[k.now.value]);
    RoundPlays(max, ops, k.strat, a, w);
    RoundPlays(max, ops + [Told(Unlock(k))] + [Pick], k.strat, a, w);
  }

  // ---- such a kernel is reached ---------------------------------------------------------------

  const INHERIT_ONLY := Mode(false, false, false, false, false, true, false)
  const FIRST := User(0, 0, 0, 0)
  const SECOND := User(1, 1, 0, 0)

  /** A task bound to `u`, awake. */
  function Bound(u: User): Task {
    FREE_TASK.(user := Some(u), rtWeight := NO_WEIGHT, baseWeight := NO_WEIGHT)
  }

  /** Both tasks added; `now` is the current task. */
  function Pair(now: Option<nat>, fsm: Fsm, kstate: KState, ticks: int): K {
    K(INHERIT_ONLY, [Bound(FIRST), Bound(SECOND)], now, fsm, kstate, ticks, [], map[],
      Ledger({0, 1}, map[0 := 0, 1 := 0], {}, map[]), [Added(0, 0), Added(1, 0)])
  }

  function PairEvents(): seq<Event> {
    [Initialize, Add(FIRST, None), Add(SECOND, None), Start(Choice(Some(0), 0)), TickBy(1, Choice(Some(1), 0))]
  }

  /** What the strategy sees meanwhile. */
  function PairOps(): seq<Op> {
    [Told(Added(0, 0)), Told(Added(1, 0)), Pick, Pick]
  }

  lemma AddFirst(k: K)
    requires k == NewKernel(INHERIT_ONLY, 2).(kstate := Ready)
    ensures AddTask(k, FIRST, None).0 == k.(tasks := [Bound(FIRST), FREE_TASK],
      strat := Ledger({0}, map[0 := 0], {}, map[]), log := [Added(0, 0)])
  {
    assert k.tasks == [FREE_TASK, FREE_TASK];
    assert TryAllocate(k, FIRST) == (AddOk, Some(0));
    assert Bind(k.mode, FREE_TASK, FIRST) == Bound(FIRST);
    assert [FREE_TASK, FREE_TASK][0 := Bound(FIRST)] == [Bound(FIRST), FREE_TASK];
    assert {} + {0} == {0} && [] + [Added(0, 0)] == [Added(0, 0)];
  }

  lemma AddSecond(k: K)
    requires k == NewKernel(INHERIT_ONLY, 2).(kstate := Ready, tasks := [Bound(FIRST), FREE_TASK],
      strat := Ledger({0}, map[0 := 0], {}, map[]), log := [Added(0, 0)])
    ensures AddTask(k, SECOND, None).0 == Pair(None, FsmNone, Ready, 0)
  {
    assert FreeFrom(k.tasks, 1) == Some(1);
    assert TryAllocate(k, SECOND) == (AddOk, Some(1));
    assert Bind(k.mode, FREE_TASK, SECOND) == Bound(SECOND);
    assert [Bound(FIRST), FREE_TASK][1 := Bound(SECOND)] == [Bound(FIRST), Bound(SECOND)];
    assert {0} + {1} == {0, 1} && [Added(0, 0)] + [Added(1, 0)] == [Added(0, 0), Added(1, 0)];
  }

  lemma StartPair(k: K)
    requires k == Pair(None, FsmNone, Ready, 0)
    ensures Shaped(k) && Enabled(k, Start(Choice(Some(0), 0)))
    ensures OnStart(k, Choice(Some(0), 0)) == Pair(Some(0), Switching, Running, 0)
  {
    assert StartFrom(k, 2) == k && StartFrom(k, 1) == k && StartFrom(k, 0) == k;
  }

  lemma TickPair(k: K)
    requires k == Pair(Some(0), Switching, Running, 0)
    ensures Shaped(k) && Enabled(k, TickBy(1, Choice(Some(1), 0)))
    ensures Tick(k, 1, Choice(Some(1), 0)) == Pair(Some(1), Switching, Running, 1)
  {
    var k1 := k.(ticks := 1);
    SteadySweep(Sweep(k1, 1), 0);
    hide SweepFrom;
    assert UpdateTaskState(k1, 1) == Sweep(k1, 1) && UpdateSyncObjects(k1, 1) == k1 && TickBody(k, 1) == k1;
  }

  lemma PairRun()
    ensures Leads(NewKernel(INHERIT_ONLY, 2), PairEvents(), Pair(Some(1), Switching, Running, 1))
  {
    hide AddTask, OnStart, Tick, TickBody, StartFrom, Leads;
    var evs, end := PairEvents(), Pair(Some(1), Switching, Running, 1);
    var k0 := NewKernel(INHERIT_ONLY, 2);
    var k1 := k0.(kstate := Ready);
    AddFirst(k1);
    var k2 := AddTask(k1, FIRST, None).0;
    AddSecond(k2);
    StartPair(Pair(None, FsmNone, Ready, 0));
    TickPair(Pair(Some(0), Switching, Running, 0));
    NoLead(end);
    LeadsStep(Pair(Some(0), Switching, Running, 0), evs[4], [], end);
    LeadsStep(Pair(None, FsmNone, Ready, 0), evs[3], [evs[4]] + [], end);
    LeadsStep(k2, evs[2], [evs[3]] + ([evs[4]] + []), end);
    LeadsStep(k1, evs[1], [evs[2]] + ([evs[3]] + ([evs[4]] + [])), end);
    LeadsStep(k0, evs[0], [evs[1]] + ([evs[2]] + ([evs[3]] + ([evs[4]] + []))), end);
    assert [evs[0]] + ([evs[1]] + ([evs[2]] + ([evs[3]] + ([evs[4]] + [])))) == evs;
  }

  /** The strategy with both tasks on its only level and the cursor on `prev`. */
  function OneLevel(list: seq<nat>, prev: nat): Fp { Fp([list], [Some(prev)], [], {0}) }

  lemma FirstIsHeard()
    ensures FpInv(NewFp(1), EMPTY_LEDGER) && AddNew(NewFp(1), 0, 0) == OneLevel([0], 0)
  {
    NewKeeps(1);
    var f := NewFp(1);
    assert f.lists == [[]] && f.prev == [None];
    assert [] + [0] == [0] && {} + {0} == {0};
  }

  lemma SecondIsHeard()
    ensures AddNew(OneLevel([0], 0), 0, 1) == OneLevel([0, 1], 1)
  {
    assert [0] + [1] == [0, 1];
  }

  lemma PairTurns()
    ensures LevelOk(Level([0, 1], Some(1))) && Turned(Level([0, 1], Some(1))) == Level([0, 1], Some(0))
    ensures LevelOk(Level([0, 1], Some(0))) && Turned(Level([0, 1], Some(0))) == Level([0, 1], Some(1))
  {
    assert [0, 1][1..] == [1];
    assert IndexOf([0, 1], 0) == 0 && IndexOf([0, 1], 1) == 1;
  }

  lemma PairNext(prev: nat, next: nat)
    requires FpInv(OneLevel([0, 1], prev), PairLedger()) && LevelOk(Level([0, 1], Some(prev)))
    requires Turned(Level([0, 1], Some(prev))) == Level([0, 1], Some(next))
    ensures (ReadyLevels(OneLevel([0, 1], prev), PairLedger());
      GetNext(OneLevel([0, 1], prev)) == (Some(next), OneLevel([0, 1], next)))
  {
    hide FpInv, Turned;
    var f := OneLevel([0, 1], prev);
    ReadyLevels(f, PairLedger());
    assert Highest(f.ready, |f.lists|) == 0 && LevelAt(f, 0) == Level([0, 1], Some(prev));
    assert [[0, 1]][0 := [0, 1]] == [[0, 1]] && [Some(prev)][0 := Some(next)] == [Some(next)];
  }

  function PairLedger(): Ledger { Ledger({0, 1}, map[0 := 0, 1 := 0], {}, map[]) }

  lemma PairReplays()
    ensures Replay([]) == Some(EMPTY_LEDGER)
    ensures Replay([Added(0, 0)]) == Some(Ledger({0}, map[0 := 0], {}, map[]))
    ensures Replay([Added(0, 0), Added(1, 0)]) == Some(PairLedger())
  {
    var l1: seq<Note>, l2: seq<Note> := [Added(0, 0)], [Added(0, 0), Added(1, 0)];
    assert l1[..|l1| - 1] == [] && l2[..|l2| - 1] == l1;
    var g := Post(EMPTY_LEDGER, Added(0, 0));
    assert g.all == {0} && g.filed == map[0 := 0];
    var h := Post(Ledger({0}, map[0 := 0], {}, map[]), Added(1, 0));
    assert h.all == {0, 1} && h.filed == map[0 := 0, 1 := 0];
  }

  /** After the notes of the two adds. */
  lemma PairAdded(ops: seq<Op>)
    requires ops == [Told(Added(0, 0)), Told(Added(1, 0))]
    ensures InLevelsAll(ops, 1) && Replay(Notes(ops)) == Some(PairLedger()) && Notes(ops) == [Added(0, 0), Added(1, 0)]
    ensures Played(1, ops) == OneLevel([0, 1], 1)
  {
    var one: seq<Op> := [Told(Added(0, 0))];
    var none: seq<Op> := [];
    assert none + [Told(Added(0, 0))] == one && one + [Told(Added(1, 0))] == ops;
    NotesSnoc(none, Added(0, 0));
    NotesSnoc(one, Added(1, 0));
    assert [] + [Added(0, 0)] == [Added(0, 0)] && [Added(0, 0)] + [Added(1, 0)] == [Added(0, 0), Added(1, 0)];
    hide FpInv, Replay, Hear;
    PairReplays();
    FirstIsHeard();
    SecondIsHeard();
    PlayedSnoc(1, none, Told(Added(0, 0)));
    PlayedSnoc(1, one, Told(Added(1, 0)));
  }

  lemma PickNotes(ops: seq<Op>)
    ensures Notes(ops + [Pick]) == Notes(ops)
  {
    assert (ops + [Pick])[..|ops|] == ops;
  }

  /** A selection on the pair, seen as one more step of its history. */
  lemma PairPick(ops: seq<Op>, prev: nat, next: nat)
    requires InLevelsAll(ops, 1) && Replay(Notes(ops)) == Some(PairLedger()) && Played(1, ops) == OneLevel([0, 1], prev)
    requires LevelOk(Level([0, 1], Some(prev))) && Turned(Level([0, 1], Some(prev))) == Level([0, 1], Some(next))
    ensures InLevelsAll(ops + [Pick], 1) && Notes(ops + [Pick]) == Notes(ops)
    ensures Answers(1, ops).next == Some(next) && Played(1, ops + [Pick]) == OneLevel([0, 1], next)
  {
    hide FpInv, Turned, LevelOk, Replay, Played;
    PickNotes(ops);
    PairNext(prev, next);
    PlayedSnoc(1, ops, Pick);
  }

  /** The state is reached: two tasks of one priority, the start, and a tick; the strategy was asked twice, and
      start and tick used its answers. From here on the second task can keep the CPU for ever. */
  lemma StarvingIsReached()
    ensures Leads(NewKernel(INHERIT_ONLY, 2), PairEvents(), Pair(Some(1), Switching, Running, 1))
    ensures Starving(Pair(Some(1), Switching, Running, 1), 1, PairOps(), 1)
    ensures var ops := PairOps();
      && InLevelsAll(ops[..2], 1) && Replay(Notes(ops[..2])).Some? && Answers(1, ops[..2]).next == Some(0)
      && InLevelsAll(ops[..3], 1) && Replay(Notes(ops[..3])).Some? && Answers(1, ops[..3]).next == Some(1)
  {
    var ops := PairOps();
    hide Leads, Replay, Played, InLevelsAll, Answers, Turned, LevelOk, Inv, Notes;
    PairRun();
    PairInv();
    PairAdded(ops[..2]);
    PairTurns();
    PairPick(ops[..2], 1, 0);
    assert ops[..2] + [Pick] == ops[..3] && ops[..3] + [Pick] == ops;
    PairPick(ops[..3], 0, 1);
    PairFound();
  }

  lemma PairInv()
    ensures Inv(Pair(Some(1), Switching, Running, 1))
  {
    hide Leads, Inv;
    PairRun();
    NewInv(INHERIT_ONLY, 2);
    LeadsKeeps(NewKernel(INHERIT_ONLY, 2), PairEvents(), Pair(Some(1), Switching, Running, 1));
  }

  lemma PairFound()
    ensures Find(Pair(Some(1), Switching, Running, 1), 1) == Some(1)
  {
    var k := Pair(Some(1), Switching, Running, 1);
    assert FindFrom(k.tasks, 1, 1) == Some(1);
  }
}
