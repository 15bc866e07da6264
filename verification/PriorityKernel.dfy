/** The kernel with the fixed-priority strategy: whole histories of calls, bounded waiting within a level, and
    the priority of the task that runs. */
module PriorityKernel {
  import opened KernelTypes
  import opened KernelSpec
  import opened KernelInv
  import opened KernelRuns
  import opened KernelSched
  import opened Rotation
  import opened FixedPriority

  /** What the strategy sees: a note of the kernel, or a request for the next task. */
  datatype Op = Told(n: Note) | Pick

  ghost predicate Allowed(f: Fp, g: Ledger, op: Op) {
    op.Told? ==> Legal(g, op.n) && InLevels(op.n, |f.lists|)
  }

  function Step(f: Fp, g: Ledger, op: Op): (r: (Fp, Ledger))
    requires FpInv(f, g) && Allowed(f, g, op)
    ensures FpInv(r.0, r.1) && |r.0.lists| == |f.lists|
  {
    match op
    case Told(n) => HearKeeps(f, g, n); (Hear(f, g, n), Post(g, n))
    case Pick => NextIsHighest(f, g); (GetNext(f).1, g)
  }

  function Notes(ops: seq<Op>): seq<Note> {
    if ops == [] then []
    else Notes(ops[..|ops| - 1]) + if ops[|ops| - 1].Told? then [ops[|ops| - 1].n] else []
  }

  ghost predicate InLevelsAll(ops: seq<Op>, max: nat) {
    forall i :: 0 <= i < |ops| && ops[i].Told? ==> InLevels(ops[i].n, max)
  }

  /** The strategy after any history whose notes the contract allows, wherever the requests fall: it stands
      for the ledger that the notes make up. */
  function Played(max: nat, ops: seq<Op>): (f: Fp)
    requires Replay(Notes(ops)).Some? && InLevelsAll(ops, max)
    ensures FpInv(f, Replay(Notes(ops)).value) && |f.lists| == max
    decreases |ops|
  {
    if ops == [] then NewKeeps(max); NewFp(max)
    else
      var init, op := ops[..|ops| - 1], ops[|ops| - 1];
      assert op.Told? ==> Notes(ops)[..|Notes(ops)| - 1] == Notes(init) && Notes(ops)[|Notes(ops)| - 1] == op.n;
      assert op.Pick? ==> Notes(ops) == Notes(init);
      var f := Played(max, init);
      Step(f, Replay(Notes(init)).value, op).0
  }

  // ---- bounded waiting ------------------------------------------------------------------------

  /** `x` is runnable on level `p` before and after every step and no note is about it, and each request is
      answered from that level but not with `x`. */
  ghost predicate Waits(f: Fp, g: Ledger, ops: seq<Op>, x: nat, p: nat)
    requires FpInv(f, g)
    decreases |ops|
  {
    x in g.filed && g.filed[x] == p < |f.lists| &&
    (ops != [] ==> Allowed(f, g, ops[0]) && Passes(f, g, ops[0], x, p) &&
                   Waits(Step(f, g, ops[0]).0, Step(f, g, ops[0]).1, ops[1..], x, p))
  }

  ghost predicate Passes(f: Fp, g: Ledger, op: Op, x: nat, p: nat)
    requires FpInv(f, g) && Allowed(f, g, op) && p < |f.lists| && Sized(f)
  {
    match op
    case Pick =>
      NextIsHighest(f, g);
      var y := GetNext(f).0;
      y.Some? && y.value != x && y.value in g.filed && g.filed[y.value] == p
    case Told(n) => n.i != x
  }

  function Picks(ops: seq<Op>): nat {
    if ops == [] then 0 else (if ops[0].Pick? then 1 else 0) + Picks(ops[1..])
  }

  /** How often a task joins level `p`. */
  function Arrivals(ops: seq<Op>, p: nat): nat {
    if ops == [] then 0 else (if Arrives(ops[0], p) then 1 else 0) + Arrivals(ops[1..], p)
  }

  predicate Arrives(op: Op, p: nat) {
    op.Told? && match op.n
      case Added(_, w) => w == p
      case Woke(_, w) => w == p
      case Reweighed(_, _, w) => w == p
      case _ => false
  }

  /** How many tasks come up before `x`. */
  function Ahead(f: Fp, p: nat, x: nat): nat
    requires Sized(f) && p < |f.lists|
  {
    var u := Upcoming(LevelAt(f, p));
    if x in u then IndexOf(u, x) else 0
  }

  /** What a handled yield costs the other tasks of level `p` at most: the tasks between the yielding one and
      the end of the rotation. The task that was selected last is at the end, so its yield costs nothing. */
  ghost function Detour(f: Fp, g: Ledger, op: Op, p: nat): nat
    requires FpInv(f, g)
  {
    if op.Told? && op.n.Yielded? && op.n.i in g.filed && g.filed[op.n.i] == p then
      FiledLevel(f, g, p);
      RotationMembers(LevelAt(f, p));
      |f.lists[p]| - 1 - Ahead(f, p, op.n.i)
    else 0
  }

  ghost function Detours(f: Fp, g: Ledger, ops: seq<Op>, p: nat): nat
    requires FpInv(f, g)
    decreases |ops|
  {
    if ops == [] || !Allowed(f, g, ops[0]) then 0
    else Detour(f, g, ops[0], p) + Detours(Step(f, g, ops[0]).0, Step(f, g, ops[0]).1, ops[1..], p)
  }

  lemma {:induction false} IndexInsert(a: seq<nat>, y: nat, b: seq<nat>, x: nat)
    requires x != y && x in a + b
    ensures x in a + [y] + b && IndexOf(a + [y] + b, x) <= IndexOf(a + b, x) + 1
    decreases |a|
  {
    var s := a + [y] + b;
    if a == [] {
      assert s[1..] == a + b;
    } else {
      assert (a + b)[1..] == a[1..] + b && s[1..] == a[1..] + [y] + b;
      if a[0] != x {
        assert x in (a + b)[1..];
        IndexInsert(a[1..], y, b, x);
      }
    }
  }

  lemma {:induction false} IndexWithout(s: seq<nat>, y: nat, x: nat)
    requires x != y && x in s
    ensures x in Without(s, y) && IndexOf(Without(s, y), x) <= IndexOf(s, x)
    decreases |s|
  {
    if s[0] == y {
      assert x in s[1..];
    } else if s[0] != x {
      assert x in s[1..];
      IndexWithout(s[1..], y, x);
      assert Without(s, y)[1..] == Without(s[1..], y);
    }
  }

  lemma {:induction false} IndexSnoc(s: seq<nat>, y: nat, x: nat)
    requires x in s
    ensures x in s + [y] && IndexOf(s + [y], x) == IndexOf(s, x)
    decreases |s|
  {
    if s[0] != x {
      assert x in s[1..] && (s + [y])[1..] == s[1..] + [y];
      IndexSnoc(s[1..], y, x);
    }
  }

  lemma IndexCons(s: seq<nat>, y: nat, x: nat)
    requires x in s && x != y
    ensures x in [y] + s && IndexOf([y] + s, x) == IndexOf(s, x) + 1
  {
    assert ([y] + s)[1..] == s;
  }

  lemma IndexMid(u: seq<nat>, i: nat, y: nat, x: nat)
    requires x in u && x != y && i <= |u|
    ensures x in u[..i] + [y] + u[i..] && IndexOf(u[..i] + [y] + u[i..], x) <= IndexOf(u, x) + 1
  {
    assert u[..i] + u[i..] == u;
    IndexInsert(u[..i], y, u[i..], x);
  }

  lemma LevelUnlink(l: Level, y: nat, x: nat)
    requires LevelOk(l) && x != y && x in l.list && y in l.list
    ensures x in Upcoming(l) && x in Upcoming(Unlinked(l, y))
    ensures IndexOf(Upcoming(Unlinked(l, y)), x) <= IndexOf(Upcoming(l), x)
  {
    hide Upcoming, IndexOf, Without, Unlinked;
    RotationMembers(l);
    UnlinkKeepsRotation(l, y);
    IndexWithout(Upcoming(l), y, x);
  }

  lemma LevelLink(l: Level, y: nat, x: nat)
    requires LevelOk(l) && x in l.list && y !in l.list
    ensures x in Upcoming(l) && x in Upcoming(Linked(l, y)) && x in Upcoming(Joined(l, y))
    ensures IndexOf(Upcoming(Linked(l, y)), x) <= IndexOf(Upcoming(l), x) + 1
    ensures IndexOf(Upcoming(Joined(l, y)), x) <= IndexOf(Upcoming(l), x) + 1
  {
    hide Upcoming, IndexOf, Linked, Joined, NoDup;
    RotationMembers(l);
    LinkPosition(l, y);
    var u := Upcoming(l);
    if AtTail(l) {
      IndexCons(u, y, x);
      IndexSnoc(u, y, x);
    } else {
      IndexMid(u, |l.list| - 1 - IndexOf(l.list, l.prev.value), y, x);
    }
  }

  /** The level of `x` after a task was taken out of level `q`, or put into it. */
  lemma UnlinkAhead(f: Fp, g: Ledger, y: nat, x: nat, p: nat)
    requires LevelsInv(f, g) && x != y && x in g.filed && g.filed[x] == p && y in g.filed
    ensures p < |f.lists| && y in f.lists[g.filed[y]] && LevelOk(LevelAt(f, g.filed[y])) && LevelOk(LevelAt(f, p))
    ensures var l, r := LevelAt(f, p), LevelAt(RemoveActive(f, g.filed[y], y), p);
      x in Upcoming(l) && x in Upcoming(r) && IndexOf(Upcoming(r), x) <= IndexOf(Upcoming(l), x)
  {
    hide Upcoming, IndexOf, Unlinked, LevelOk;
    RemoveActiveKeeps(f, g, y);
    assert LevelInv(f, g, p);
    RotationMembers(LevelAt(f, p));
    if g.filed[y] == p { LevelUnlink(LevelAt(f, p), y, x); }
  }

  lemma LinkAhead(f: Fp, g: Ledger, q: nat, y: nat, x: nat, p: nat)
    requires LevelsInv(f, g) && x in g.filed && g.filed[x] == p && y !in g.filed && q < |f.lists|
    ensures p < |f.lists|
    ensures var l, a, b := LevelAt(f, p), LevelAt(AddActive(f, q, y), p), LevelAt(AddNew(f, q, y), p);
      var d := if q == p then 1 else 0;
      x in Upcoming(l) && x in Upcoming(a) && IndexOf(Upcoming(a), x) <= IndexOf(Upcoming(l), x) + d &&
      x in Upcoming(b) && IndexOf(Upcoming(b), x) <= IndexOf(Upcoming(l), x) + d
  {
    hide Upcoming, IndexOf, Linked, Joined, LevelOk;
    assert LevelInv(f, g, p) && LevelInv(f, g, q);
    RotationMembers(LevelAt(f, p));
    if q == p { LevelLink(LevelAt(f, p), y, x); }
    AddIs(f, q, y);
  }

  /** One step: a request brings `x` forward by one, an arrival puts it back by at most one, a yield by at
      most its detour, and nothing else puts it back. */
  lemma StepAhead(f: Fp, g: Ledger, op: Op, x: nat, p: nat)
    requires FpInv(f, g) && Allowed(f, g, op) && x in g.filed && g.filed[x] == p
    requires p < |f.lists| && Passes(f, g, op, x, p)
    ensures var r := Step(f, g, op).0;
      Sized(r) && p < |r.lists| && x in Upcoming(LevelAt(f, p)) && x in Upcoming(LevelAt(r, p)) &&
      Ahead(r, p, x) + (if op.Pick? then 1 else 0) <=
        Ahead(f, p, x) + (if Arrives(op, p) then 1 else 0) + Detour(f, g, op, p)
  {
    assert LevelInv(f, g, p);
    RotationMembers(LevelAt(f, p));
    if op.Pick? {
      PickAhead(f, g, x, p);
    } else {
      NoteAhead(f, g, op.n, x, p);
    }
  }

  lemma PickAhead(f: Fp, g: Ledger, x: nat, p: nat)
    requires FpInv(f, g) && x in g.filed && g.filed[x] == p && p < |f.lists| && Passes(f, g, Pick, x, p)
    ensures var r := Step(f, g, Pick).0;
      x in Upcoming(LevelAt(f, p)) && x in Upcoming(LevelAt(r, p)) && Ahead(r, p, x) + 1 == Ahead(f, p, x)
  {
    hide Upcoming, FpInv, GetNext;
    NextIsHighest(f, g);
    assert LevelInv(f, g, p) by { FiledLevel(f, g, p); }
    RotationMembers(LevelAt(f, p));
    var u := Upcoming(LevelAt(f, p));
    assert u[0] != x && x in u[1..];
    IndexSnoc(u[1..], u[0], x);
  }

  lemma FiledLevel(f: Fp, g: Ledger, p: nat)
    requires FpInv(f, g) && p < |f.lists|
    ensures LevelInv(f, g, p)
  {
  }

  lemma NoteAhead(f: Fp, g: Ledger, n: Note, x: nat, p: nat)
    requires FpInv(f, g) && Allowed(f, g, Told(n)) && x in g.filed && g.filed[x] == p
    requires p < |f.lists| && Passes(f, g, Told(n), x, p)
    ensures var r := Hear(f, g, n);
      Sized(r) && p < |r.lists| && x in Upcoming(LevelAt(f, p)) && x in Upcoming(LevelAt(r, p)) &&
      Ahead(r, p, x) <= Ahead(f, p, x) + (if Arrives(Told(n), p) then 1 else 0) + Detour(f, g, Told(n), p)
  {
    FiledLevel(f, g, p);
    RotationMembers(LevelAt(f, p));
    hide Detour;
    if n.Yielded? { YieldAhead(f, g, n.i, x, p); }
    hide Upcoming, IndexOf, RemoveActive, AddActive, AddNew, NoDup, Without;
    var y := n.i;
    match n
    case Added(_, w) => LinkAhead(f, g, w, y, x, p);
    case Removed(_, w) => if y !in f.sleep { UnlinkAhead(f, g, y, x, p); }
    case Slept(_, w) => UnlinkAhead(f, g, y, x, p);
    case Woke(_, w) => WokeAhead(f, g, y, w, x, p);
    case Reweighed(_, oldW, w) => if y !in f.sleep { ReweighedAhead(f, g, y, w, x, p); }
    case Yielded(_) =>
    case _ =>
  }

  /** A yield moves the cursor to the yielding task. */
  lemma YieldAhead(f: Fp, g: Ledger, y: nat, x: nat, p: nat)
    requires FpInv(f, g) && y in g.filed && x in g.filed && x != y && g.filed[x] == p < |f.lists|
    ensures var r := Hear(f, g, Yielded(y));
      && x in Upcoming(LevelAt(r, p))
      && Ahead(r, p, x) <= Ahead(f, p, x) + Detour(f, g, Told(Yielded(y)), p)
  {
    FiledLevel(f, g, p);
    FiledLevel(f, g, g.filed[y]);
    var l := LevelAt(f, p);
    RotationMembers(l);
    var r := Hear(f, g, Yielded(y));
    if g.filed[y] == p {
      assert LevelAt(r, p) == l.(prev := Some(y));
      hide Upcoming, IndexOf, NoDup, FpInv, LevelInv;
      YieldPlace(l, y, x);
      RotationMembers(l.(prev := Some(y)));
    } else {
      assert LevelAt(r, p) == l;
    }
  }

  lemma YieldPlace(l: Level, y: nat, x: nat)
    requires LevelOk(l) && x in l.list && y in l.list
    ensures x in Upcoming(l) && y in Upcoming(l) && x in Upcoming(l.(prev := Some(y)))
    ensures IndexOf(Upcoming(l.(prev := Some(y))), x) <=
      IndexOf(Upcoming(l), x) + (|l.list| - 1 - IndexOf(Upcoming(l), y))
  {
    hide Upcoming, IndexOf, NoDup;
    var s := l.list;
    var c, iy, ix := IndexOf(s, l.prev.value), IndexOf(s, y), IndexOf(s, x);
    assert l == Level(s, Some(s[c])) && l.(prev := Some(y)) == Level(s, Some(s[iy]));
    PlaceIs(s, c, ix);
    PlaceIs(s, c, iy);
    PlaceIs(s, iy, ix);
  }

  lemma WokeAhead(f: Fp, g: Ledger, y: nat, w: nat, x: nat, p: nat)
    requires FpInv(f, g) && y !in g.filed && w < |f.lists| && x in g.filed && g.filed[x] == p < |f.lists|
    ensures var r := AddActive(f.(sleep := Without(f.sleep, y)), w, y);
      x in Upcoming(LevelAt(f, p)) && x in Upcoming(LevelAt(r, p)) &&
      Ahead(r, p, x) <= Ahead(f, p, x) + (if w == p then 1 else 0)
  {
    MoreTasks(f, g, g);
    hide Upcoming, IndexOf, AddActive, LevelsInv;
    LinkAhead(f.(sleep := Without(f.sleep, y)), g, w, y, x, p);
  }

  lemma ReweighedAhead(f: Fp, g: Ledger, y: nat, w: nat, x: nat, p: nat)
    requires FpInv(f, g) && y in g.filed && y != x && w < |f.lists| && x in g.filed && g.filed[x] == p < |f.lists|
    ensures var q := g.filed[y];
      0 <= q < |f.lists| && y in f.lists[q] && LevelOk(LevelAt(f, q)) &&
      var r := AddActive(RemoveActive(f, q, y), w, y);
      x in Upcoming(LevelAt(f, p)) && x in Upcoming(LevelAt(r, p)) &&
      Ahead(r, p, x) <= Ahead(f, p, x) + (if w == p then 1 else 0)
  {
    hide Upcoming, IndexOf, AddActive, RemoveActive;
    RemoveActiveKeeps(f, g, y);
    UnlinkAhead(f, g, y, x, p);
    LinkAhead(RemoveActive(f, g.filed[y], y), g.(filed := g.filed - {y}), w, y, x, p);
  }

  /** Bounded waiting: while a runnable task of the serving level is passed over, there are no more requests
      than there were tasks before it, plus the times a task joined its level since, plus the detours of
      yields by tasks that were not the last ones selected. */
  lemma {:induction false} BoundedWaiting(f: Fp, g: Ledger, ops: seq<Op>, x: nat, p: nat)
    requires FpInv(f, g) && Waits(f, g, ops, x, p)
    ensures Sized(f) && p < |f.lists| && x in Upcoming(LevelAt(f, p))
    ensures Picks(ops) <= Ahead(f, p, x) + Arrivals(ops, p) + Detours(f, g, ops, p)
    ensures Ahead(f, p, x) < |f.lists[p]|
    decreases |ops|
  {
    FiledLevel(f, g, p);
    RotationMembers(LevelAt(f, p));
    hide Upcoming, IndexOf, FpInv, LevelInv, Detour;
    if ops != [] {
      StepAhead(f, g, ops[0], x, p);
      BoundedWaiting(Step(f, g, ops[0]).0, Step(f, g, ops[0]).1, ops[1..], x, p);
    }
  }

  // ---- starvation -----------------------------------------------------------------------------

  /** `n` times: the weight of `a` changes to the level it is on, and the next task is requested. */
  function Relinking(a: nat, p: nat, n: nat): seq<Op> {
    if n == 0 then [] else [Told(Reweighed(a, p, p)), Pick] + Relinking(a, p, n - 1)
  }

  /** Every step of the history is allowed, every request is answered with `a`, and it ends in (`h`, `e`). */
  ghost predicate Serves(f: Fp, g: Ledger, ops: seq<Op>, a: nat, h: Fp, e: Ledger)
    requires FpInv(f, g)
    decreases |ops|
  {
    if ops == [] then (h, e) == (f, g)
    else
      && Allowed(f, g, ops[0]) && (ops[0].Pick? ==> (NextIsHighest(f, g); GetNext(f).0 == Some(a)))
      && Serves(Step(f, g, ops[0]).0, Step(f, g, ops[0]).1, ops[1..], a, h, e)
  }

  /** The rotation is not fair when weights change to the same level, as they do whenever a mutex is unlocked:
      for every number of requests, the task at the cursor on the tail of the highest level is selected each
      time, and its peers stay runnable and unserved. */
  lemma {:induction false} RelinkingStarves(f: Fp, g: Ledger, a: nat, p: nat, n: nat)
    requires FpInv(f, g) && p < |f.lists| && a in g.filed && g.filed[a] == p
    requires forall j :: j in g.filed ==> g.filed[j] <= p
    requires |f.lists[p]| >= 2 && f.lists[p][|f.lists[p]| - 1] == a && |f.prev| == |f.lists| && f.prev[p] == Some(a)
    ensures Serves(f, g, Relinking(a, p, n), a, f, g)
    decreases n
  {
    if n > 0 {
      RelinkingStarves(f, g, a, p, n - 1);
      RelinkedOnce(f, g, a, p);
      hide FpInv, GetNext, Hear;
      var ops := Relinking(a, p, n);
      assert ops[1..] == [Pick] + Relinking(a, p, n - 1) && ops[1..][1..] == Relinking(a, p, n - 1);
      var (f1, g1) := Step(f, g, Told(Reweighed(a, p, p)));
      assert Serves(f1, g1, ops[1..], a, f, g);
    }
  }

  lemma RelinkedOnce(f: Fp, g: Ledger, a: nat, p: nat)
    requires FpInv(f, g) && p < |f.lists| && a in g.filed && g.filed[a] == p
    requires forall j :: j in g.filed ==> g.filed[j] <= p
    requires |f.lists[p]| >= 2 && f.lists[p][|f.lists[p]| - 1] == a && |f.prev| == |f.lists| && f.prev[p] == Some(a)
    ensures Allowed(f, g, Told(Reweighed(a, p, p)))
    ensures var (f1, g1) := Step(f, g, Told(Reweighed(a, p, p)));
      && g1 == g && (NextIsHighest(f1, g1); GetNext(f1) == (Some(a), f))
  {
    hide FpInv, GetNext, Hear;
    RelinkedNote(f, g, a, p);
    RelinkedPick(f, g, a, p);
  }

  /** The change of weight relinks the task on its level. */
  lemma RelinkedNote(f: Fp, g: Ledger, a: nat, p: nat)
    requires FpInv(f, g) && p < |f.lists| && a in g.filed && g.filed[a] == p && |f.lists[p]| >= 2
    ensures Sized(f) && LevelOk(LevelAt(f, p)) && a in f.lists[p] && Allowed(f, g, Told(Reweighed(a, p, p)))
    ensures Step(f, g, Told(Reweighed(a, p, p))) == (PutLevel(f, p, Relinked(LevelAt(f, p), a)), g)
  {
    FiledLevel(f, g, p);
    assert a !in f.sleep;
    assert g.filed[a := p] == g.filed;
    RemoveActiveKeeps(f, g, a);
    hide LevelsInv, NoDup;
    RelinkedState(f, p, a);
  }

  lemma RelinkedState(f: Fp, p: nat, a: nat)
    requires Sized(f) && p < |f.lists| && LevelOk(LevelAt(f, p)) && a in f.lists[p] && |f.lists[p]| >= 2
    ensures AddActive(RemoveActive(f, p, a), p, a) == PutLevel(f, p, Relinked(LevelAt(f, p), a))
  {
    var l := LevelAt(f, p);
    var m := Unlinked(l, a);
    AloneNot(l.list, a);
    WithoutShorter(l.list, a);
    assert RemoveActive(f, p, a) == PutLevel(f, p, m);
    hide Unlinked, RemoveActive, Succ, LevelOk;
    PutTwice(f, p, m, Linked(m, a));
  }

  lemma WithoutShorter(s: seq<nat>, a: nat)
    requires NoDup(s) && a in s
    ensures |Without(s, a)| == |s| - 1
  {
    WithoutAt(s, IndexOf(s, a));
  }

  lemma PutTwice(f: Fp, p: nat, m: Level, w: Level)
    requires Sized(f) && p < |f.lists|
    ensures PutLevel(PutLevel(f, p, m), p, w) == PutLevel(f, p, w)
    ensures PutLevel(PutLevel(f, p, m), p, LevelAt(f, p)) == f
  {
    assert f.lists[p := m.list][p := w.list] == f.lists[p := w.list];
    assert f.prev[p := m.prev][p := w.prev] == f.prev[p := w.prev];
    assert f.lists[p := m.list][p := f.lists[p]] == f.lists;
    assert f.prev[p := m.prev][p := f.prev[p]] == f.prev;
  }

  /** The selection that follows restores everything. */
  lemma RelinkedPick(f: Fp, g: Ledger, a: nat, p: nat)
    requires FpInv(f, g) && p < |f.lists| && a in g.filed && g.filed[a] == p
    requires forall j :: j in g.filed ==> g.filed[j] <= p
    requires |f.lists[p]| >= 2 && f.lists[p][|f.lists[p]| - 1] == a && |f.prev| == |f.lists| && f.prev[p] == Some(a)
    requires LevelOk(LevelAt(f, p)) && a in f.lists[p] && FpInv(PutLevel(f, p, Relinked(LevelAt(f, p), a)), g)
    ensures var f1 := PutLevel(f, p, Relinked(LevelAt(f, p), a));
      (NextIsHighest(f1, g); GetNext(f1) == (Some(a), f))
  {
    hide FpInv, NoDup;
    var l := LevelAt(f, p);
    var f1 := PutLevel(f, p, Relinked(l, a));
    NextIsHighest(f1, g);
    TopLevel(f, g, p);
    RelinkedTailRepeats(l, a);
    hide Relinked, Turned, LevelOk;
    PutTwice(f, p, Relinked(l, a), l);
  }

  lemma TopLevel(f: Fp, g: Ledger, p: nat)
    requires FpInv(f, g) && p < |f.lists| && f.lists[p] != [] && forall j :: j in g.filed ==> g.filed[j] <= p
    ensures p in f.ready && BitsInRange(f) && Highest(f.ready, |f.lists|) == p
  {
    FiledLevel(f, g, p);
    var q := Highest(f.ready, |f.lists|);
    FiledLevel(f, g, q);
    assert f.lists[q][0] in f.lists[q];
  }

  /** Unlocking does change the weight to the same level: OnRestoreWeight of a task that was not boosted, with
      no waiter above it, tells the strategy about a change from its weight to its weight. */
  lemma RestoreTellsSameLevel(k: K, u: nat, s: Option<nat>)
    requires Inv(k) && k.mode.inherit && Find(k, u).Some? && k.tasks[Find(k, u).value].rtWeight == NO_WEIGHT
    requires Shaped(k)
    requires s.Some? ==> MaxWeight(k.tasks, WaitList(k, s.value)) <= EffWeight(k.tasks[Find(k, u).value])
    ensures var i := Find(k, u).value; var w := EffWeight(k.tasks[i]);
      RestoreWeight(k, u, s).log == k.log + [Reweighed(i, w, w)]
  {
  }

  // ---- the kernel with this strategy ----------------------------------------------------------

  /** The CPU is in the sleep trap exactly when nothing is runnable; otherwise the current task is runnable
      and no runnable task has a higher weight. */
  ghost predicate HighestRuns(k: K) {
    (k.fsm == Sleeping <==> k.strat.filed == map[]) &&
    (k.fsm != Sleeping ==> k.now.Some? && k.now.value in k.strat.filed &&
                           forall j :: j in k.strat.filed ==> k.strat.filed[j] <= k.strat.filed[k.now.value])
  }

  /** The answers of the strategy after a history. */
  function Answers(max: nat, ops: seq<Op>): Choice
    requires Replay(Notes(ops)).Some? && InLevelsAll(ops, max)
  {
    var f := Played(max, ops);
    ReadyLevels(f, Replay(Notes(ops)).value);
    Choice(GetNext(f).0, GetFirst(f))
  }

  lemma AnswersAreLegal(max: nat, ops: seq<Op>)
    requires Replay(Notes(ops)).Some? && InLevelsAll(ops, max)
    ensures var g, c := Replay(Notes(ops)).value, Answers(max, ops);
      LegalChoice(g, c) && (g.all == {} ==> c.first == 0) &&
      (c.next.Some? ==> forall j :: j in g.filed ==> g.filed[j] <= g.filed[c.next.value])
  {
    var f, g := Played(max, ops), Replay(Notes(ops)).value;
    hide Played;
    NextIsHighest(f, g);
    if g.all == {} {
      assert |f.sleep| > 0 ==> f.sleep[0] in f.sleep;
    } else {
      FirstIsManaged(f, g);
    }
  }

  /** One step of the scheduler with the strategy's answers. */
  lemma StepServesHighest(b: K, max: nat, ops: seq<Op>)
    requires Core(b) && NowMid(b) && b.kstate != Locked && b.now.Some?
    requires forall j :: 0 <= j < |b.tasks| ==> Settled(b, j)
    requires Notes(ops) == b.log && InLevelsAll(ops, max)
    ensures Shaped(b) && Replay(Notes(ops)) == Some(b.strat)
    ensures var c := Answers(max, ops);
      Fits(b, c) && LegalChoice(b.strat, c) &&
      (UpdateFsmState(b, c).fsm != Exiting ==> HighestRuns(UpdateFsmState(b, c)))
  {
    CoreShaped(b);
    hide WaitsInv, Distinct, Replay, Settled, SlotInv, Answers;
    AnswersAreLegal(max, ops);
    var c := Answers(max, ops);
    StepConserves(b, c);
    FsmServes(b, c);
  }

  lemma FsmServes(b: K, c: Choice)
    requires PhaseInv(b) && NowMid(b) && b.now.Some? && b.kstate != Locked && Fits(b, c) && LegalChoice(b.strat, c)
    requires c.next.Some? ==> forall j :: j in b.strat.filed ==> b.strat.filed[j] <= b.strat.filed[c.next.value]
    ensures UpdateFsmState(b, c).fsm != Exiting ==> HighestRuns(UpdateFsmState(b, c))
  {
    hide Shaped, HrtOut;
  }

  /** With the fixed-priority strategy, after every unlocked tick before the exit the current task has the
      highest effective weight of all runnable tasks, whatever requests came before. */
  lemma TickServesHighest(k: K, e: int, max: nat, ops: seq<Op>)
    requires Inv(k) && k.fsm != FsmNone && e >= 0 && BounceFree(k, 0, e) && k.kstate != Locked && k.now.Some?
    requires Notes(ops) == TickBody(k, e).log && InLevelsAll(ops, max)
    ensures Replay(Notes(ops)) == Some(TickBody(k, e).strat)
    ensures var c := Answers(max, ops);
      Fits(k, c) && Enabled(k, TickBy(e, c)) &&
      (Tick(k, e, c).fsm != Exiting ==> HighestRuns(Tick(k, e, c)))
  {
    hide Core, TickBody, UpdateFsmState, Settled, Answers;
    CoreShaped(k);
    TickBodyKeeps(k, e);
    BodyFrame(k, e);
    StepServesHighest(TickBody(k, e), max, ops);
  }

  /** The same after every forced switch that acts. */
  lemma ForceServesHighest(k: K, id: nat, max: nat, ops: seq<Op>)
    requires Inv(k) && k.now.Some? && ForceBody(k, id).Some?
    requires Notes(ops) == ForceBody(k, id).value.log && InLevelsAll(ops, max)
    ensures Replay(Notes(ops)) == Some(ForceBody(k, id).value.strat)
    ensures var c := Answers(max, ops);
      Fits(k, c) && Enabled(k, Force(id, c)) && HighestRuns(ForceSwitch(k, id, c))
  {
    hide Core, UpdateFsmState, Settled, Answers;
    CoreShaped(k);
    ForceBodyKeeps(k, id);
    StepServesHighest(ForceBody(k, id).value, max, ops);
    ForceConserves(k, id, Answers(max, ops));
  }
}
