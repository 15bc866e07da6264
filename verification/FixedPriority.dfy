/** The fixed-priority strategy: a rotation for each priority level, a list of sleeping tasks and a bitmap of
    the levels that have runnable tasks. Proved to meet the contract that the kernel theorems rely on. */
module FixedPriority {
  import opened KernelTypes
  import opened KernelSpec
  import opened KernelInv
  import opened KernelSync
  import opened Rotation

  /** Lists and cursors by level, sleeping tasks, and the set bits of the ready bitmap. */
  datatype Fp = Fp(lists: seq<seq<nat>>, prev: seq<Option<nat>>, sleep: seq<nat>, ready: set<nat>)

  predicate Sized(f: Fp) { |f.lists| == |f.prev| }

  function LevelAt(f: Fp, p: nat): Level
    requires Sized(f) && p < |f.lists|
  {
    Level(f.lists[p], f.prev[p])
  }

  function PutLevel(f: Fp, p: nat, l: Level): (r: Fp)
    requires Sized(f) && p < |f.lists|
    ensures Sized(r) && |r.lists| == |f.lists|
    ensures forall q: nat :: q < |f.lists| ==> LevelAt(r, q) == if q == p then l else LevelAt(f, q)
  {
    f.(lists := f.lists[p := l.list], prev := f.prev[p := l.prev])
  }

  function NewFp(max: nat): Fp {
    Fp(seq(max, p => []), seq(max, p => None), [], {})
  }

  // ---- operations -----------------------------------------------------------------------------

  /** AddActive. */
  function AddActive(f: Fp, p: nat, x: nat): (r: Fp)
    requires Sized(f) && p < |f.lists|
    ensures Sized(r) && |r.lists| == |f.lists| && r.sleep == f.sleep
  {
    var l := Linked(LevelAt(f, p), x);
    var r := PutLevel(f, p, l);
    if |l.list| == 1 then r.(ready := f.ready + {p}) else r
  }

  /** AddTask. */
  function AddNew(f: Fp, p: nat, x: nat): (r: Fp)
    requires Sized(f) && p < |f.lists|
    ensures Sized(r) && |r.lists| == |f.lists| && r.sleep == f.sleep
  {
    PutLevel(AddActive(f, p, x), p, Joined(LevelAt(f, p), x))
  }

  /** RemoveActive. */
  function RemoveActive(f: Fp, p: nat, x: nat): (r: Fp)
    requires Sized(f) && p < |f.lists| && LevelOk(LevelAt(f, p)) && x in f.lists[p]
    ensures Sized(r) && |r.lists| == |f.lists| && r.sleep == f.sleep
  {
    var r := PutLevel(f, p, Unlinked(LevelAt(f, p), x));
    if Succ(f.lists[p], x) == x then r.(ready := f.ready - {p}) else r
  }

  /** The highest set bit below `n`. */
  function Highest(ready: set<nat>, n: nat): (p: nat)
    requires exists q: nat :: q < n && q in ready
    ensures p < n && p in ready && forall q :: p < q < n ==> q !in ready
  {
    if n - 1 in ready then n - 1 else Highest(ready, n - 1)
  }

  /** GetNext: the answer and the state with the cursor moved. */
  function GetNext(f: Fp): (r: (Option<nat>, Fp))
    requires Sized(f) && BitsInRange(f)
    requires forall p: nat :: p in f.ready ==> LevelOk(LevelAt(f, p)) && f.lists[p] != []
  {
    if f.ready == {} then (None, f)
    else
      var p := Highest(f.ready, |f.lists|);
      var l := Turned(LevelAt(f, p));
      (l.prev, PutLevel(f, p, l))
  }

  /** GetFirst; without any task there is no answer, and the kernel does not ask. */
  function GetFirst(f: Fp): nat
    requires BitsInRange(f) && forall p: nat :: p in f.ready ==> f.lists[p] != []
  {
    if f.ready == {} then if f.sleep == [] then 0 else f.sleep[0]
    else f.lists[Highest(f.ready, |f.lists|)][0]
  }

  predicate BitsInRange(f: Fp)
    ensures BitsInRange(f) && f.ready != {} ==> exists q: nat :: q < |f.lists| && q in f.ready
  {
    assert f.ready != {} ==> exists q: nat :: q in f.ready;
    forall p: nat :: p in f.ready ==> p < |f.lists|
  }

  // ---- the contract ---------------------------------------------------------------------------

  /** Level `p` holds exactly the runnable tasks that are filed under weight `p`. */
  ghost predicate LevelInv(f: Fp, g: Ledger, p: nat)
    requires Sized(f) && p < |f.lists|
  {
    LevelOk(LevelAt(f, p)) && (p in f.ready <==> f.lists[p] != []) &&
    forall i: nat :: i in f.lists[p] <==> i in g.filed && g.filed[i] == p
  }

  ghost predicate LevelsInv(f: Fp, g: Ledger) {
    Sized(f) && BitsInRange(f) && (forall p: nat :: p < |f.lists| ==> LevelInv(f, g, p)) &&
    forall i: nat :: i in g.filed ==> 0 <= g.filed[i] < |f.lists|
  }

  /** The strategy's state stands for the ledger. */
  ghost predicate FpInv(f: Fp, g: Ledger) {
    LevelsInv(f, g) && NoDup(f.sleep) && (forall i: nat :: i in g.filed ==> i in g.all) &&
    forall i: nat :: i in f.sleep <==> i in g.all && i !in g.filed
  }

  lemma NewKeeps(max: nat)
    ensures FpInv(NewFp(max), EMPTY_LEDGER)
  {
  }

  lemma RemoveActiveKeeps(f: Fp, g: Ledger, x: nat)
    requires LevelsInv(f, g) && x in g.filed
    ensures x in f.lists[g.filed[x]] && LevelOk(LevelAt(f, g.filed[x]))
    ensures LevelsInv(RemoveActive(f, g.filed[x], x), g.(filed := g.filed - {x}))
  {
    var p: nat := g.filed[x];
    assert LevelInv(f, g, p);
    UnlinkKeepsRotation(LevelAt(f, p), x);
    AloneIff(f.lists[p], x);
    DropKeeps(f, g, p, x, Unlinked(LevelAt(f, p), x));
    hide LevelsInv;
  }

  lemma DropKeeps(f: Fp, g: Ledger, p: nat, x: nat, l: Level)
    requires LevelsInv(f, g) && x in g.filed && g.filed[x] == p < |f.lists| && LevelOk(l)
    requires forall y :: y in l.list <==> y in f.lists[p] && y != x
    ensures LevelsInv(PutLevel(f, p, l).(ready := if l.list == [] then f.ready - {p} else f.ready),
      g.(filed := g.filed - {x}))
  {
    var h := g.(filed := g.filed - {x});
    var r := PutLevel(f, p, l).(ready := if l.list == [] then f.ready - {p} else f.ready);
    hide LevelOk;
    assert l.list != [] ==> l.list[0] in f.lists[p];
    forall q: nat | q < |r.lists| ensures LevelInv(r, h, q) {
      assert LevelInv(f, g, q) && LevelAt(r, q) == if q == p then l else LevelAt(f, q);
    }
  }

  lemma AloneIff(s: seq<nat>, x: nat)
    requires NoDup(s) && x in s
    ensures Succ(s, x) == x <==> Without(s, x) == []
  {
    hide Without;
    WithoutAt(s, IndexOf(s, x));
  }

  lemma LinkKeeps(f: Fp, g: Ledger, p: nat, x: nat)
    requires LevelsInv(f, g) && x !in g.filed && p < |f.lists|
    ensures LevelsInv(AddActive(f, p, x), g.(filed := g.filed[x := p]))
    ensures LevelsInv(AddNew(f, p, x), g.(filed := g.filed[x := p]))
  {
    assert LevelInv(f, g, p);
    LinkPosition(LevelAt(f, p), x);
    var a, b := Linked(LevelAt(f, p), x), Joined(LevelAt(f, p), x);
    PutKeeps(f, g, p, x, a);
    PutKeeps(f, g, p, x, b);
    hide LevelsInv;
    AddIs(f, p, x);
  }

  lemma AddIs(f: Fp, p: nat, x: nat)
    requires Sized(f) && p < |f.lists| && (p in f.ready <==> f.lists[p] != [])
    ensures AddActive(f, p, x) == PutLevel(f, p, Linked(LevelAt(f, p), x)).(ready := f.ready + {p})
    ensures AddNew(f, p, x) == PutLevel(f, p, Joined(LevelAt(f, p), x)).(ready := f.ready + {p})
  {
    assert f.lists[p] != [] ==> f.ready + {p} == f.ready;
    var a, b := Linked(LevelAt(f, p), x), Joined(LevelAt(f, p), x);
    assert f.lists[p := a.list][p := b.list] == f.lists[p := b.list];
    assert f.prev[p := a.prev][p := b.prev] == f.prev[p := b.prev];
  }

  lemma PutKeeps(f: Fp, g: Ledger, p: nat, x: nat, l: Level)
    requires LevelsInv(f, g) && x !in g.filed && p < |f.lists| && LevelOk(l) && l.list == f.lists[p] + [x]
    ensures LevelsInv(PutLevel(f, p, l).(ready := f.ready + {p}), g.(filed := g.filed[x := p]))
  {
    var r, h := PutLevel(f, p, l).(ready := f.ready + {p}), g.(filed := g.filed[x := p]);
    hide LevelOk;
    forall q: nat | q < |r.lists| ensures LevelInv(r, h, q) {
      assert LevelInv(f, g, q) && LevelAt(r, q) == if q == p then l else LevelAt(f, q);
    }
  }

  // ---- notes from the kernel ------------------------------------------------------------------

  /** The weights that the strategy asserts to be valid levels. */
  predicate InLevels(n: Note, max: nat) {
    match n
    case Added(_, w) => 0 <= w < max
    case Woke(_, w) => 0 <= w < max
    case Reweighed(_, _, w) => 0 <= w < max
    case _ => true
  }

  /** What each call of the kernel does; the note of a yield comes from a strategy that handles it. */
  function Hear(f: Fp, g: Ledger, n: Note): (r: Fp)
    requires FpInv(f, g) && Legal(g, n) && InLevels(n, |f.lists|)
  {
    match n
    case Added(x, w) => AddNew(f, w, x)
    case Removed(x, w) =>
      if x in f.sleep then f.(sleep := Without(f.sleep, x))
      else RemoveActiveKeeps(f, g, x); RemoveActive(f, w, x)
    case Slept(x, w) =>
      RemoveActiveKeeps(f, g, x);
      var r := RemoveActive(f, w, x);
      r.(sleep := r.sleep + [x])
    case Woke(x, w) => AddActive(f.(sleep := Without(f.sleep, x)), w, x)
    case Reweighed(x, oldW, w) =>
      if x in f.sleep then f
      else RemoveActiveKeeps(f, g, x); AddActive(RemoveActive(f, oldW, x), w, x)
    case Yielded(x) =>
      assert LevelInv(f, g, g.filed[x]);
      f.(prev := f.prev[g.filed[x] := Some(x)])
    case _ => f
  }

  lemma HearKeeps(f: Fp, g: Ledger, n: Note)
    requires FpInv(f, g) && Legal(g, n) && InLevels(n, |f.lists|)
    ensures FpInv(Hear(f, g, n), Post(g, n)) && |Hear(f, g, n).lists| == |f.lists|
  {
    match n
    case Added(x, w) => HearAdded(f, g, x, w);
    case Removed(x, w) => HearRemoved(f, g, x, w);
    case Slept(x, w) => HearSlept(f, g, x, w);
    case Woke(x, w) => HearWoke(f, g, x, w);
    case Reweighed(x, oldW, w) => HearReweighed(f, g, x, oldW, w);
    case Yielded(x) => HearYielded(f, g, x);
    case _ => MoreTasks(f, g, Post(g, n));
  }

  lemma HearAdded(f: Fp, g: Ledger, x: nat, w: int)
    requires FpInv(f, g) && Legal(g, Added(x, w)) && 0 <= w < |f.lists|
    ensures FpInv(Hear(f, g, Added(x, w)), Post(g, Added(x, w)))
  {
    LinkKeeps(f, g, w, x);
    hide LevelsInv, NoDup;
    MoreTasks(AddNew(f, w, x), g.(filed := g.filed[x := w]), Post(g, Added(x, w)));
  }

  lemma HearRemoved(f: Fp, g: Ledger, x: nat, w: int)
    requires FpInv(f, g) && Legal(g, Removed(x, w))
    ensures FpInv(Hear(f, g, Removed(x, w)), Post(g, Removed(x, w)))
    ensures |Hear(f, g, Removed(x, w)).lists| == |f.lists|
  {
    WithoutMembers(f.sleep, x);
    hide LevelsInv, NoDup, Without, RemoveActive;
    var h := Post(g, Removed(x, w));
    if x in f.sleep {
      assert g.filed - {x} == g.filed;
      MoreTasks(f, g, h);
    } else {
      RemoveActiveKeeps(f, g, x);
      MoreTasks(RemoveActive(f, w, x), g.(filed := g.filed - {x}), h);
    }
  }

  lemma HearSlept(f: Fp, g: Ledger, x: nat, w: int)
    requires FpInv(f, g) && Legal(g, Slept(x, w))
    ensures FpInv(Hear(f, g, Slept(x, w)), Post(g, Slept(x, w)))
    ensures |Hear(f, g, Slept(x, w)).lists| == |f.lists|
  {
    RemoveActiveKeeps(f, g, x);
    NoDupSnoc(f.sleep, x);
    hide LevelsInv, NoDup, RemoveActive;
    MoreTasks(RemoveActive(f, w, x), Post(g, Slept(x, w)), Post(g, Slept(x, w)));
  }

  lemma HearWoke(f: Fp, g: Ledger, x: nat, w: int)
    requires FpInv(f, g) && Legal(g, Woke(x, w)) && 0 <= w < |f.lists|
    ensures FpInv(Hear(f, g, Woke(x, w)), Post(g, Woke(x, w)))
  {
    WithoutMembers(f.sleep, x);
    MoreTasks(f, g, g);
    var f1 := f.(sleep := Without(f.sleep, x));
    LinkKeeps(f1, g, w, x);
    hide LevelsInv, NoDup, Without, AddActive;
  }

  lemma HearReweighed(f: Fp, g: Ledger, x: nat, oldW: int, w: int)
    requires FpInv(f, g) && Legal(g, Reweighed(x, oldW, w)) && 0 <= w < |f.lists|
    ensures FpInv(Hear(f, g, Reweighed(x, oldW, w)), Post(g, Reweighed(x, oldW, w)))
    ensures |Hear(f, g, Reweighed(x, oldW, w)).lists| == |f.lists|
  {
    hide NoDup, RemoveActive, AddActive;
    if x !in f.sleep {
      assert x in g.filed && g.filed[x] == oldW && 0 <= oldW < |f.lists|;
      RemoveActiveKeeps(f, g, x);
      LinkKeeps(RemoveActive(f, oldW, x), g.(filed := g.filed - {x}), w, x);
      assert (g.filed - {x})[x := w] == g.filed[x := w];
    }
  }

  lemma HearYielded(f: Fp, g: Ledger, x: nat)
    requires FpInv(f, g) && Legal(g, Yielded(x))
    ensures FpInv(Hear(f, g, Yielded(x)), Post(g, Yielded(x)))
  {
    hide NoDup;
    var r := Hear(f, g, Yielded(x));
    forall p: nat | p < |r.lists| ensures LevelInv(r, g, p) { assert LevelInv(f, g, p); }
  }

  /** Which tasks there are, and which of them sleep, does not matter to the levels. */
  lemma MoreTasks(f: Fp, g: Ledger, h: Ledger)
    requires LevelsInv(f, g) && h.filed == g.filed
    ensures LevelsInv(f, h)
    ensures forall s :: LevelsInv(f.(sleep := s), h)
  {
    forall s, p: nat | p < |f.lists| ensures LevelInv(f, h, p) && LevelInv(f.(sleep := s), h, p) {
      assert LevelInv(f, g, p);
    }
  }

  // ---- places in the rotation -----------------------------------------------------------------

  /** The rotation of a level once `x` has joined it: behind the tail of the list; with the cursor on the tail an
      added task comes up last, any other first. */
  ghost function Entered(l: Level, x: nat, added: bool): seq<nat>
    requires LevelOk(l)
  {
    var u := Upcoming(l);
    if AtTail(l) then if added then u + [x] else [x] + u
    else
      var i := |l.list| - 1 - IndexOf(l.list, l.prev.value);
      if i <= |u| then u[..i] + [x] + u[i..] else u
  }

  /** All levels but `p` are as they were. */
  ghost predicate OtherLevels(f: Fp, r: Fp, p: int) {
    Sized(f) && Sized(r) && |r.lists| == |f.lists| &&
    forall q: nat :: q < |f.lists| && q != p ==> LevelAt(r, q) == LevelAt(f, q)
  }

  /** Where each call leaves the tasks of the level it is about: an added or woken task enters the rotation, a
      sleeping or removed one leaves it, and a task whose weight changes does both; the order of the others
      stays. */
  lemma HearPlaces(f: Fp, g: Ledger, n: Note)
    requires FpInv(f, g) && Legal(g, n) && InLevels(n, |f.lists|)
    ensures Sized(f) && Sized(Hear(f, g, n)) && |Hear(f, g, n).lists| == |f.lists|
    ensures forall p: nat :: p < |f.lists| ==> LevelOk(LevelAt(f, p))
    ensures n.i in g.filed ==> 0 <= g.filed[n.i] < |f.lists|
    ensures var r := Hear(f, g, n);
      match n
      case Added(x, w) => OtherLevels(f, r, w) && Upcoming(LevelAt(r, w)) == Entered(LevelAt(f, w), x, true)
      case Woke(x, w) => OtherLevels(f, r, w) && Upcoming(LevelAt(r, w)) == Entered(LevelAt(f, w), x, false)
      case Slept(x, w) => OtherLevels(f, r, w) && Upcoming(LevelAt(r, w)) == Without(Upcoming(LevelAt(f, w)), x)
      case Removed(x, w) =>
        x in g.filed ==> OtherLevels(f, r, w) && Upcoming(LevelAt(r, w)) == Without(Upcoming(LevelAt(f, w)), x)
      case Reweighed(x, oldW, w) =>
        x in g.filed && oldW != w ==>
          && Upcoming(LevelAt(r, oldW)) == Without(Upcoming(LevelAt(f, oldW)), x)
          && Upcoming(LevelAt(r, w)) == Entered(LevelAt(f, w), x, false)
          && forall q: nat :: q < |f.lists| && q != oldW && q != w ==> LevelAt(r, q) == LevelAt(f, q)
      case _ => true
  {
    HearKeeps(f, g, n);
    forall p: nat | p < |f.lists| ensures LevelOk(LevelAt(f, p)) { assert LevelInv(f, g, p); }
    hide LevelOk, NoDup, Upcoming, IndexOf, Without;
    match n
    case Added(x, w) => EnterLevel(f, g, w, x);
    case Woke(x, w) =>
      var f1 := f.(sleep := Without(f.sleep, x));
      MoreTasks(f, g, g);
      assert forall q: nat :: q < |f.lists| ==> LevelAt(f1, q) == LevelAt(f, q);
      EnterLevel(f1, g, w, x);
    case Slept(x, w) => LeaveLevel(f, g, x);
    case Removed(x, w) => if x in g.filed { LeaveLevel(f, g, x); }
    case Reweighed(x, oldW, w) => if x in g.filed && oldW != w { MoveLevel(f, g, x, w); }
    case _ =>
  }

  lemma EnterLevel(f: Fp, g: Ledger, p: nat, x: nat)
    requires LevelsInv(f, g) && x !in g.filed && p < |f.lists|
    ensures LevelOk(LevelAt(f, p))
    ensures var a, b := AddActive(f, p, x), AddNew(f, p, x);
      && OtherLevels(f, a, p) && Upcoming(LevelAt(a, p)) == Entered(LevelAt(f, p), x, false)
      && OtherLevels(f, b, p) && Upcoming(LevelAt(b, p)) == Entered(LevelAt(f, p), x, true)
  {
    assert LevelInv(f, g, p);
    LinkPosition(LevelAt(f, p), x);
    RotationMembers(LevelAt(f, p));
    AddIs(f, p, x);
    hide Upcoming;
  }

  lemma LeaveLevel(f: Fp, g: Ledger, x: nat)
    requires LevelsInv(f, g) && x in g.filed
    ensures var p := g.filed[x];
      && 0 <= p < |f.lists| && LevelOk(LevelAt(f, p)) && x in f.lists[p] && var r := RemoveActive(f, p, x);
      OtherLevels(f, r, p) && Upcoming(LevelAt(r, p)) == Without(Upcoming(LevelAt(f, p)), x)
  {
    assert LevelInv(f, g, g.filed[x]);
    UnlinkKeepsRotation(LevelAt(f, g.filed[x]), x);
    hide Upcoming, Without, Unlinked;
  }

  lemma MoveLevel(f: Fp, g: Ledger, x: nat, w: nat)
    requires FpInv(f, g) && x in g.filed && w < |f.lists| && w != g.filed[x]
    ensures var p := g.filed[x];
      && 0 <= p < |f.lists| && LevelOk(LevelAt(f, p)) && LevelOk(LevelAt(f, w)) && x in f.lists[p]
      && var r := AddActive(RemoveActive(f, p, x), w, x);
      && Upcoming(LevelAt(r, p)) == Without(Upcoming(LevelAt(f, p)), x)
      && Upcoming(LevelAt(r, w)) == Entered(LevelAt(f, w), x, false)
      && forall q: nat :: q < |f.lists| && q != p && q != w ==> LevelAt(r, q) == LevelAt(f, q)
  {
    var p := g.filed[x];
    LeaveLevel(f, g, x);
    RemoveActiveKeeps(f, g, x);
    var f1 := RemoveActive(f, p, x);
    assert LevelAt(f1, w) == LevelAt(f, w);
    hide LevelOk, NoDup, Upcoming, IndexOf, Without, RemoveActive, AddActive;
    EnterLevel(f1, g.(filed := g.filed - {x}), w, x);
  }

  // ---- answers --------------------------------------------------------------------------------

  lemma ReadyLevels(f: Fp, g: Ledger)
    requires FpInv(f, g)
    ensures Sized(f) && BitsInRange(f)
    ensures forall p: nat :: p in f.ready ==> LevelOk(LevelAt(f, p)) && f.lists[p] != []
    ensures f.ready == {} <==> g.filed == map[]
  {
    forall p: nat | p in f.ready ensures LevelOk(LevelAt(f, p)) && f.lists[p] != [] { assert LevelInv(f, g, p); }
    if g.filed != map[] {
      var i :| i in g.filed;
      assert LevelInv(f, g, g.filed[i]);
      assert g.filed[i] in f.ready;
    }
    if f.ready != {} {
      var p: nat :| p in f.ready;
      assert LevelInv(f, g, p) && f.lists[p][0] in f.lists[p];
    }
  }

  /** The answer is the head of the rotation of the highest level that has runnable tasks: none when nothing
      is runnable, otherwise a runnable task of the highest weight; only that rotation moves on, by one. */
  lemma NextIsHighest(f: Fp, g: Ledger)
    requires FpInv(f, g)
    ensures Sized(f) && BitsInRange(f)
    ensures forall p: nat :: p in f.ready ==> LevelOk(LevelAt(f, p)) && f.lists[p] != []
    ensures GetNext(f).0.None? <==> g.filed == map[]
    ensures GetNext(f).0.Some? ==>
      var x := GetNext(f).0.value;
      x in g.filed && (forall j :: j in g.filed ==> g.filed[j] <= g.filed[x]) &&
      var p: nat := g.filed[x];
      p < |f.lists| && var u := Upcoming(LevelAt(f, p));
      u != [] && x == u[0] && |GetNext(f).1.lists| == |f.lists| == |GetNext(f).1.prev| &&
      Upcoming(LevelAt(GetNext(f).1, p)) == u[1..] + [u[0]] &&
      forall q: nat :: q < |f.lists| && q != p ==> LevelAt(GetNext(f).1, q) == LevelAt(f, q)
    ensures FpInv(GetNext(f).1, g)
  {
    ReadyLevels(f, g);
    if f.ready != {} {
      var p := Highest(f.ready, |f.lists|);
      assert LevelInv(f, g, p);
      TurnRotates(LevelAt(f, p));
      RotationMembers(LevelAt(f, p));
      var u := Upcoming(LevelAt(f, p));
      assert u[0] in u;
      TurnKeeps(f, g, p);
      forall j | j in g.filed ensures g.filed[j] <= p { assert LevelInv(f, g, g.filed[j]); }
    }
  }

  lemma TurnKeeps(f: Fp, g: Ledger, p: nat)
    requires FpInv(f, g) && p in f.ready
    ensures p < |f.lists| && LevelOk(LevelAt(f, p)) && f.lists[p] != []
    ensures FpInv(PutLevel(f, p, Turned(LevelAt(f, p))), g)
  {
    assert LevelInv(f, g, p);
    TurnRotates(LevelAt(f, p));
    var r := PutLevel(f, p, Turned(LevelAt(f, p)));
    hide NoDup, Upcoming;
    forall q: nat | q < |r.lists| ensures LevelInv(r, g, q) {
      assert LevelInv(f, g, q) && LevelAt(r, q) == if q == p then Turned(LevelAt(f, p)) else LevelAt(f, q);
    }
  }

  /** After a yield the task is the last of its rotation, all lists are as they were, and the next selection from
      its level is its successor, or the task itself when it is alone there. The strategy selects from that
      level as long as no runnable task weighs more. */
  lemma YieldSelectsSuccessor(f: Fp, g: Ledger, x: nat)
    requires FpInv(f, g) && Legal(g, Yielded(x))
    ensures Sized(f) && 0 <= g.filed[x] < |f.lists| && x in f.lists[g.filed[x]]
    ensures var r, p := Hear(f, g, Yielded(x)), g.filed[x];
      && r.lists == f.lists && r.sleep == f.sleep && r.ready == f.ready && r.prev == f.prev[p := Some(x)]
      && FpInv(r, g)
      && ((forall j :: j in g.filed ==> g.filed[j] <= p) ==>
            (ReadyLevels(r, g); GetNext(r).0 == Some(Succ(f.lists[p], x))))
  {
    HearYielded(f, g, x);
    var r, p := Hear(f, g, Yielded(x)), g.filed[x];
    assert LevelInv(f, g, p);
    hide NoDup, LevelsInv, Succ;
    ReadyLevels(r, g);
    if forall j :: j in g.filed ==> g.filed[j] <= p {
      HighestIs(r, g, x);
    }
  }

  lemma HighestIs(f: Fp, g: Ledger, x: nat)
    requires FpInv(f, g) && x in g.filed && forall j :: j in g.filed ==> g.filed[j] <= g.filed[x]
    ensures BitsInRange(f) && f.ready != {} && Highest(f.ready, |f.lists|) == g.filed[x]
  {
    assert LevelInv(f, g, g.filed[x]);
    var p := Highest(f.ready, |f.lists|);
    assert LevelInv(f, g, p) && f.lists[p][0] in f.lists[p];
  }

  lemma FirstIsManaged(f: Fp, g: Ledger)
    requires FpInv(f, g) && g.all != {}
    ensures BitsInRange(f) && (forall p: nat :: p in f.ready ==> f.lists[p] != []) && GetFirst(f) in g.all
    ensures g.filed != map[] ==>
      GetFirst(f) in g.filed && forall j :: j in g.filed ==> g.filed[j] <= g.filed[GetFirst(f)]
  {
    ReadyLevels(f, g);
    if f.ready == {} {
      var i :| i in g.all;
      assert i in f.sleep;
      assert f.sleep[0] in f.sleep;
    } else {
      var p := Highest(f.ready, |f.lists|);
      assert LevelInv(f, g, p) && f.lists[p][0] in f.lists[p];
      forall j | j in g.filed ensures g.filed[j] <= p { assert LevelInv(f, g, g.filed[j]); }
    }
  }
}
