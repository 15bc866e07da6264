/** One priority level of the fixed-priority strategy: a circular list with a cursor, and the rotation that
    it stands for. */
module Rotation {
  import opened KernelTypes
  import opened KernelSpec
  import opened KernelInv
  import opened KernelSync

  // ---- circular lists -------------------------------------------------------------------------

  function IndexOf(s: seq<nat>, x: nat): (i: nat)
    requires x in s
    ensures i < |s| && s[i] == x
  {
    if s[0] == x then 0 else 1 + IndexOf(s[1..], x)
  }

  lemma IndexIs(s: seq<nat>, i: nat)
    requires NoDup(s) && i < |s|
    ensures IndexOf(s, s[i]) == i
  {
  }

  /** GetNext() and GetPrev() of an entry in a closed list. */
  function Succ(s: seq<nat>, x: nat): nat
    requires x in s
  {
    var i := IndexOf(s, x);
    if i + 1 < |s| then s[i + 1] else s[0]
  }

  function Pred(s: seq<nat>, x: nat): nat
    requires x in s
  {
    var i := IndexOf(s, x);
    if i > 0 then s[i - 1] else s[|s| - 1]
  }

  /** One level: its list and its cursor, the task that was selected last. */
  datatype Level = Level(list: seq<nat>, prev: Option<nat>)

  ghost predicate LevelOk(l: Level) {
    NoDup(l.list) && (l.prev.None? <==> l.list == []) && (l.prev.Some? ==> l.prev.value in l.list)
  }

  /** AddActive on one level. */
  function Linked(l: Level, x: nat): Level {
    Level(l.list + [x], if l.list == [] then Some(x) else l.prev)
  }

  /** AddTask on one level: a cursor on the tail moves to the new tail. */
  function Joined(l: Level, x: nat): Level {
    var tail := if l.list == [] then None else Some(l.list[|l.list| - 1]);
    if l.prev == tail then Linked(l, x).(prev := Some(x)) else Linked(l, x)
  }

  /** RemoveActive on one level: a cursor on the task moves to the predecessor of the task's successor. */
  function Unlinked(l: Level, x: nat): Level
    requires LevelOk(l) && x in l.list
  {
    var next := Succ(l.list, x);
    var list := Without(l.list, x);
    if next == x then Level(list, None)
    else if l.prev == Some(x) then SuccStays(l.list, x); Level(list, Some(Pred(list, next)))
    else Level(list, l.prev)
  }

  /** GetNext on one level. */
  function Turned(l: Level): Level
    requires LevelOk(l) && l.list != []
  {
    l.(prev := Some(Succ(l.list, l.prev.value)))
  }

  lemma SuccStays(s: seq<nat>, x: nat)
    requires NoDup(s) && x in s && Succ(s, x) != x
    ensures Succ(s, x) in Without(s, x)
  {
    WithoutMembers(s, x);
  }

  // ---- the rotation ---------------------------------------------------------------------------

  /** The order in which a level's tasks come up from here on, the one selected last at the end. */
  function Upcoming(l: Level): (r: seq<nat>) {
    if l.prev.None? || l.prev.value !in l.list then l.list
    else
      var i := IndexOf(l.list, l.prev.value);
      l.list[i + 1..] + l.list[..i + 1]
  }

  lemma {:induction false} WithoutSplit(a: seq<nat>, x: nat, b: seq<nat>)
    requires x !in a
    ensures Without(a + [x] + b, x) == a + b
    decreases |a|
  {
    var s := a + [x] + b;
    if a == [] {
      assert s[1..] == b;
    } else {
      WithoutSplit(a[1..], x, b);
      assert s[1..] == a[1..] + [x] + b;
      assert a + b == [a[0]] + (a[1..] + b);
    }
  }

  lemma WithoutAt(s: seq<nat>, i: nat)
    requires NoDup(s) && i < |s|
    ensures Without(s, s[i]) == s[..i] + s[i + 1..]
  {
    assert s == s[..i] + [s[i]] + s[i + 1..];
    WithoutSplit(s[..i], s[i], s[i + 1..]);
  }

  lemma UpcomingIs(s: seq<nat>, i: nat)
    requires NoDup(s) && i < |s|
    ensures Upcoming(Level(s, Some(s[i]))) == s[i + 1..] + s[..i + 1]
  {
    IndexIs(s, i);
  }

  /** A selection takes the head of the rotation and puts it at the end. */
  lemma TurnRotates(l: Level)
    requires LevelOk(l) && l.list != []
    ensures LevelOk(Turned(l)) && var u := Upcoming(l);
      u != [] && Turned(l).prev == Some(u[0]) && Upcoming(Turned(l)) == u[1..] + [u[0]]
  {
    hide IndexOf, Upcoming;
    var s, i := l.list, IndexOf(l.list, l.prev.value);
    UpcomingIs(s, i);
    assert l == Level(s, Some(s[i]));
    if i + 1 < |s| {
      UpcomingIs(s, i + 1);
      assert s[i + 1..] == [s[i + 1]] + s[i + 2..];
      assert s[..i + 2] == s[..i + 1] + [s[i + 1]];
    } else {
      UpcomingIs(s, 0);
      assert s[..i + 1] == s && s[..1] == [s[0]];
    }
  }

  /** Taking a task out leaves the rotation of the others as it is, wherever the cursor was. */
  lemma UnlinkKeepsRotation(l: Level, x: nat)
    requires LevelOk(l) && x in l.list
    ensures LevelOk(Unlinked(l, x)) && Upcoming(Unlinked(l, x)) == Without(Upcoming(l), x)
    ensures forall y :: y in Unlinked(l, x).list <==> y in l.list && y != x
  {
    hide IndexOf, Upcoming, Without;
    WithoutMembers(l.list, x);
    if |l.list| == 1 {
      UnlinkLast(l, x);
    } else if l.prev == Some(x) {
      UnlinkCursor(l, x);
    } else {
      UnlinkOther(l, x);
    }
  }

  lemma UnlinkLast(l: Level, x: nat)
    requires LevelOk(l) && x in l.list && |l.list| == 1
    ensures LevelOk(Unlinked(l, x)) && Upcoming(Unlinked(l, x)) == Without(Upcoming(l), x)
  {
    assert l.list == [x];
    UpcomingIs(l.list, 0);
    WithoutSplit([], x, []);
    assert [] + [x] + [] == [x];
  }

  lemma UnlinkCursor(l: Level, x: nat)
    requires LevelOk(l) && x in l.list && l.prev == Some(x) && |l.list| > 1
    ensures LevelOk(Unlinked(l, x)) && Upcoming(Unlinked(l, x)) == Without(Upcoming(l), x)
  {
    hide IndexOf, Upcoming, Without, NoDup, Succ, Pred;
    WithoutMembers(l.list, x);
    var s, i := l.list, IndexOf(l.list, x);
    UpcomingIs(s, i);
    CursorPred(s, i);
    CursorRest(s, i);
    assert l == Level(s, Some(s[i]));
  }

  /** The predecessor of the successor of entry `i`, once that entry is gone. */
  lemma CursorPred(s: seq<nat>, i: nat)
    requires NoDup(s) && i < |s| && |s| > 1
    ensures Succ(s, s[i]) != s[i] && Succ(s, s[i]) in Without(s, s[i])
    ensures Pred(Without(s, s[i]), Succ(s, s[i])) == s[if i > 0 then i - 1 else |s| - 1]
  {
    hide IndexOf, Without;
    WithoutMembers(s, s[i]);
    IndexIs(s, i);
    WithoutAt(s, i);
    var r := Without(s, s[i]);
    if i + 1 < |s| { IndexIs(r, i); } else { IndexIs(r, 0); }
  }

  lemma CursorRest(s: seq<nat>, i: nat)
    requires NoDup(s) && i < |s| && |s| > 1
    ensures var p := s[if i > 0 then i - 1 else |s| - 1];
      p in Without(s, s[i]) && Upcoming(Level(Without(s, s[i]), Some(p))) == s[i + 1..] + s[..i]
    ensures Without(s[i + 1..] + s[..i + 1], s[i]) == s[i + 1..] + s[..i]
  {
    hide Upcoming, Without, NoDup;
    WithoutMembers(s, s[i]);
    WithoutAt(s, i);
    var front, back := s[..i], s[i + 1..];
    WithoutLast(s, i);
    if i > 0 {
      CutTwo(front, back);
    } else {
      assert front + back == back && back + front == back && back + [] == back;
      CutTwo(back, []);
    }
  }

  lemma WithoutLast(s: seq<nat>, i: nat)
    requires NoDup(s) && i < |s|
    ensures Without(s[i + 1..] + s[..i + 1], s[i]) == s[i + 1..] + s[..i]
  {
    hide Without, NoDup;
    Elsewhere(s, i, 0, i);
    Elsewhere(s, i, i + 1, |s|);
    var front, back, x := s[..i], s[i + 1..], s[i];
    WithoutSplit(back + front, x, []);
    assert s[..i + 1] == front + [x];
    assert back + (front + [x]) == back + front + [x] + [];
    assert (back + front) + [] == back + front;
  }

  lemma CutTwo(front: seq<nat>, back: seq<nat>)
    requires front != [] && NoDup(front + back)
    ensures Upcoming(Level(front + back, Some(front[|front| - 1]))) == back + front
  {
    hide Upcoming, NoDup;
    var r, n := front + back, |front|;
    assert r[n..] == back && r[..n] == front && r[n - 1] == front[n - 1];
    UpcomingIs(r, n - 1);
  }

  lemma UnlinkOther(l: Level, x: nat)
    requires LevelOk(l) && x in l.list && l.prev != Some(x)
    ensures LevelOk(Unlinked(l, x)) && Upcoming(Unlinked(l, x)) == Without(Upcoming(l), x)
  {
    hide IndexOf, Upcoming, Without, NoDup;
    WithoutMembers(l.list, x);
    var s, i, c := l.list, IndexOf(l.list, x), IndexOf(l.list, l.prev.value);
    var r := Without(s, x);
    WithoutAt(s, i);
    UpcomingIs(s, c);
    assert l == Level(s, Some(s[c])) && l.prev.value in r;
    if i < c { UnlinkBefore(s, i, c); } else { UnlinkBehind(s, i, c); }
  }

  lemma Elsewhere(s: seq<nat>, i: nat, a: nat, b: nat)
    requires NoDup(s) && i < |s| && a <= b <= |s| && !(a <= i < b)
    ensures s[i] !in s[a..b]
  {
  }

  lemma UnlinkBefore(s: seq<nat>, i: nat, c: nat)
    requires NoDup(s) && i < c < |s|
    ensures Upcoming(Level(Without(s, s[i]), Some(s[c]))) == Without(s[c + 1..] + s[..c + 1], s[i])
  {
    hide Upcoming, Without, NoDup;
    var r, x := Without(s, s[i]), s[i];
    WithoutMembers(s, x);
    WithoutAt(s, i);
    Elsewhere(s, i, 0, i);
    Elsewhere(s, i, c + 1, |s|);
    var front, mid, back := s[..i], s[i + 1..c + 1], s[c + 1..];
    Joins(s, i, c);
    WithoutSplit(back + front, x, mid);
    Cut(front, mid, back);
  }

  lemma Joins(s: seq<nat>, i: nat, c: nat)
    requires i < c < |s|
    ensures var front, mid, back := s[..i], s[i + 1..c + 1], s[c + 1..];
      s[i + 1..] == mid + back && back + s[..c + 1] == back + front + [s[i]] + mid && s[c] == mid[|mid| - 1]
  {
    assert s[..c + 1] == s[..i] + [s[i]] + s[i + 1..c + 1];
  }

  lemma Cut(front: seq<nat>, mid: seq<nat>, back: seq<nat>)
    requires mid != [] && NoDup(front + (mid + back))
    ensures Upcoming(Level(front + (mid + back), Some(mid[|mid| - 1]))) == back + front + mid
  {
    hide Upcoming, NoDup;
    var r, n := front + (mid + back), |front| + |mid|;
    assert r == (front + mid) + back;
    assert r[n..] == back && r[..n] == front + mid && r[n - 1] == mid[|mid| - 1];
    UpcomingIs(r, n - 1);
  }

  lemma UnlinkBehind(s: seq<nat>, i: nat, c: nat)
    requires NoDup(s) && c < i < |s|
    ensures Upcoming(Level(Without(s, s[i]), Some(s[c]))) == Without(s[c + 1..] + s[..c + 1], s[i])
  {
    hide Upcoming, Without, NoDup;
    var r, x := Without(s, s[i]), s[i];
    WithoutMembers(s, x);
    WithoutAt(s, i);
    Elsewhere(s, i, c + 1, i);
    var front, mid, back := s[..c + 1], s[c + 1..i], s[i + 1..];
    JoinsBehind(s, i, c);
    WithoutSplit(mid, x, back + front);
    CutBehind(front, mid, back);
  }

  lemma JoinsBehind(s: seq<nat>, i: nat, c: nat)
    requires c < i < |s|
    ensures var front, mid, back := s[..c + 1], s[c + 1..i], s[i + 1..];
      s[..i] == front + mid && s[c + 1..] + front == mid + [s[i]] + (back + front) && s[c] == front[|front| - 1]
  {
    assert s[c + 1..] == s[c + 1..i] + [s[i]] + s[i + 1..];
  }

  lemma CutBehind(front: seq<nat>, mid: seq<nat>, back: seq<nat>)
    requires front != [] && NoDup(front + mid + back)
    ensures Upcoming(Level(front + mid + back, Some(front[|front| - 1]))) == mid + (back + front)
  {
    hide Upcoming, NoDup;
    var r, n := front + mid + back, |front|;
    assert r == front + (mid + back);
    assert r[n..] == mid + back && r[..n] == front && r[n - 1] == front[n - 1];
    UpcomingIs(r, n - 1);
  }

  /** The cursor is on the tail of the list, or there is no list. */
  predicate AtTail(l: Level) {
    l.list == [] || l.prev == Some(l.list[|l.list| - 1])
  }

  /** A new task joins behind the tail of the list. When the cursor is on the tail, an added task is last in
      the rotation, but a woken one is first: it overtakes the whole level. */
  lemma LinkPosition(l: Level, x: nat)
    requires LevelOk(l) && x !in l.list
    ensures LevelOk(Linked(l, x)) && LevelOk(Joined(l, x))
    ensures AtTail(l) ==> Upcoming(Linked(l, x)) == [x] + Upcoming(l) && Upcoming(Joined(l, x)) == Upcoming(l) + [x]
    ensures !AtTail(l) ==>
      var i := |l.list| - 1 - IndexOf(l.list, l.prev.value);
      Joined(l, x) == Linked(l, x) && Upcoming(Linked(l, x)) == Upcoming(l)[..i] + [x] + Upcoming(l)[i..]
  {
    hide IndexOf, NoDup, Upcoming;
    var s := l.list;
    NoDupSnoc(s, x);
    if s == [] {
      LinkEmpty(l, x);
      assert s + [x] == [x] && [x] + [] == [x];
    } else {
      var i := IndexOf(s, l.prev.value);
      assert l == Level(s, Some(s[i]));
      LinkAt(s, i, x);
      if i == |s| - 1 { LinkTail(s, x); } else { LinkInner(s, i, x); }
    }
  }

  lemma LinkEmpty(l: Level, x: nat)
    requires l == Level([], None)
    ensures Upcoming(l) == [] && Upcoming(Level([x], Some(x))) == [x]
  {
    UpcomingIs([x], 0);
  }

  lemma LinkTail(s: seq<nat>, x: nat)
    requires s != []
    ensures var i := |s| - 1; s[i + 1..] + [x] + s[..i + 1] == [x] + (s[i + 1..] + s[..i + 1])
    ensures var i := |s| - 1; s[i + 1..] + s[..i + 1] == s
  {
  }

  lemma LinkInner(s: seq<nat>, i: nat, x: nat)
    requires NoDup(s) && i < |s| - 1
    ensures var u, k := s[i + 1..] + s[..i + 1], |s| - 1 - i; s[i + 1..] + [x] + s[..i + 1] == u[..k] + [x] + u[k..]
    ensures s[i] != s[|s| - 1]
  {
  }

  lemma NoDupSnoc(s: seq<nat>, x: nat)
    requires NoDup(s) && x !in s
    ensures NoDup(s + [x])
  {
  }

  lemma LinkAt(s: seq<nat>, i: nat, x: nat)
    requires NoDup(s) && NoDup(s + [x]) && i < |s|
    ensures Upcoming(Level(s, Some(s[i]))) == s[i + 1..] + s[..i + 1]
    ensures Upcoming(Level(s + [x], Some(s[i]))) == s[i + 1..] + [x] + s[..i + 1]
    ensures Upcoming(Level(s + [x], Some(x))) == s + [x]
  {
    hide Upcoming, NoDup;
    var r := s + [x];
    assert r[i] == s[i] && r[|s|] == x;
    UpcomingIs(s, i);
    UpcomingIs(r, i);
    UpcomingIs(r, |s|);
    assert r[i + 1..] == s[i + 1..] + [x] && r[..i + 1] == s[..i + 1];
    assert r[|s| + 1..] == [] && r[..|s| + 1] == r;
  }

  // ---- places in the rotation -----------------------------------------------------------------

  lemma {:induction false} RotationNoDup(s: seq<nat>, k: nat)
    requires NoDup(s) && k <= |s|
    ensures NoDup(s[k..] + s[..k])
  {
    var r := s[k..] + s[..k];
    forall a, b | 0 <= a < b < |r| ensures r[a] != r[b] {
      assert r[a] == s[if a < |s| - k then a + k else a + k - |s|];
      assert r[b] == s[if b < |s| - k then b + k else b + k - |s|];
    }
  }

  /** How many tasks come up before entry `i` when the cursor is on entry `c`. */
  function Distance(n: nat, c: nat, i: nat): (d: nat)
    requires c < n && i < n
    ensures d < n
  {
    if i > c then i - c - 1 else n - 1 - c + i
  }

  lemma PlaceIs(s: seq<nat>, c: nat, i: nat)
    requires NoDup(s) && c < |s| && i < |s|
    ensures var u := Upcoming(Level(s, Some(s[c]))); s[i] in u && IndexOf(u, s[i]) == Distance(|s|, c, i)
  {
    hide Upcoming, IndexOf, NoDup;
    UpcomingIs(s, c);
    RotationNoDup(s, c + 1);
    var u, d := s[c + 1..] + s[..c + 1], Distance(|s|, c, i);
    assert u[d] == s[i];
    IndexIs(u, d);
  }

  // ---- a weight change to the same level ------------------------------------------------------

  /** OnTaskWeightChange on one level, when old and new level are the same: the task leaves and joins. */
  function Relinked(l: Level, a: nat): Level
    requires LevelOk(l) && a in l.list
  {
    Linked(Unlinked(l, a), a)
  }

  /** Where the task joins: behind the entries that follow the cursor in the list. */
  function JoinPlace(l: Level): (i: nat)
    requires LevelOk(l)
    ensures i <= |l.list| && (i == 0 <==> AtTail(l))
  {
    if l.list == [] then 0 else
    var c := IndexOf(l.list, l.prev.value);
    if c + 1 < |l.list| then (assert l.list[c] != l.list[|l.list| - 1]; |l.list| - 1 - c) else 0
  }

  /** A weight change to the same level takes the task out of the rotation and puts it back at its joining
      place; the others keep their order. */
  lemma RelinkPlace(l: Level, a: nat)
    requires LevelOk(l) && a in l.list
    ensures LevelOk(Unlinked(l, a)) && LevelOk(Relinked(l, a))
    ensures var u, i := Without(Upcoming(l), a), JoinPlace(Unlinked(l, a));
      && i <= |u| && a !in u && Upcoming(Relinked(l, a)) == u[..i] + [a] + u[i..]
  {
    hide Upcoming, IndexOf, Without, NoDup, Unlinked;
    UnlinkKeepsRotation(l, a);
    var m := Unlinked(l, a);
    LinkPosition(m, a);
    RotationMembers(m);
    var u := Upcoming(m);
    if AtTail(m) { assert u[..0] + [a] + u[0..] == [a] + u; }
  }

  lemma RotationMembers(l: Level)
    ensures forall x :: x in Upcoming(l) <==> x in l.list
    ensures |Upcoming(l)| == |l.list|
  {
    if l.prev.Some? && l.prev.value in l.list {
      var i := IndexOf(l.list, l.prev.value);
      assert l.list == l.list[..i + 1] + l.list[i + 1..];
    }
  }

  /** After such a change the task itself is selected next if and only if, without it, the cursor would be on
      the tail of the list. */
  lemma RelinkOvertakes(l: Level, a: nat)
    requires LevelOk(l) && a in l.list
    ensures LevelOk(Unlinked(l, a)) && LevelOk(Relinked(l, a)) && Relinked(l, a).list != []
    ensures Turned(Relinked(l, a)).prev == Some(a) <==> AtTail(Unlinked(l, a))
  {
    hide Upcoming, IndexOf, Without, NoDup, Unlinked, Turned;
    RelinkPlace(l, a);
    TurnRotates(Relinked(l, a));
    var u, i := Without(Upcoming(l), a), JoinPlace(Unlinked(l, a));
    if i > 0 { assert (u[..i] + [a] + u[i..])[0] == u[0] && u[0] in u; }
  }

  /** The change is the promised no-operation on the rotation if and only if the task is alone, or it is not
      the one at the cursor and is the first or the last of the list. */
  lemma RelinkUnchangedExactly(l: Level, a: nat)
    requires LevelOk(l) && a in l.list
    ensures LevelOk(Unlinked(l, a)) && LevelOk(Relinked(l, a))
    ensures Upcoming(Relinked(l, a)) == Upcoming(l) <==>
      |l.list| == 1 || (l.prev != Some(a) && (a == l.list[0] || a == l.list[|l.list| - 1]))
  {
    hide Upcoming, IndexOf, Without, NoDup, Unlinked, JoinPlace;
    RelinkPlace(l, a);
    RotationMembers(l);
    var u, i := Without(Upcoming(l), a), JoinPlace(Unlinked(l, a));
    var s := l.list;
    var ia, c := IndexOf(s, a), IndexOf(s, l.prev.value);
    assert l == Level(s, Some(s[c]));
    PlaceIs(s, c, ia);
    JoinPlaceIs(l, a);
    WholeRotation(l);
    InsertIs(Upcoming(l), a);
    InsertedAt(u, a, i, Distance(|s|, c, ia));
    HeadOrTail(s, ia);
    if c != ia { NoDupAt(s, c, ia); }
  }

  lemma WholeRotation(l: Level)
    requires LevelOk(l)
    ensures NoDup(Upcoming(l))
  {
    if l.list != [] {
      var c := IndexOf(l.list, l.prev.value);
      UpcomingIs(l.list, c);
      RotationNoDup(l.list, c + 1);
    }
  }

  lemma NoDupAt(s: seq<nat>, i: nat, j: nat)
    requires NoDup(s) && i < |s| && j < |s| && i != j
    ensures s[i] != s[j]
  {
  }

  lemma HeadOrTail(s: seq<nat>, i: nat)
    requires NoDup(s) && i < |s|
    ensures s[i] == s[0] <==> i == 0
    ensures s[i] == s[|s| - 1] <==> i == |s| - 1
  {
  }

  /** A sequence without duplicates is what remains without an entry, with the entry back in its place. */
  lemma InsertIs(x: seq<nat>, a: nat)
    requires NoDup(x) && a in x
    ensures var u, j := Without(x, a), IndexOf(x, a); j <= |u| && x == u[..j] + [a] + u[j..]
  {
    var j := IndexOf(x, a);
    WithoutAt(x, j);
    assert x == x[..j] + [x[j]] + x[j + 1..];
  }

  lemma InsertedAt(u: seq<nat>, a: nat, i: nat, j: nat)
    requires a !in u && i <= |u| && j <= |u|
    ensures u[..i] + [a] + u[i..] == u[..j] + [a] + u[j..] <==> i == j
  {
    var x, y := u[..i] + [a] + u[i..], u[..j] + [a] + u[j..];
    if i != j {
      var k := if i < j then i else i - 1;
      assert x[i] == a && y[i] == u[k] && u[k] in u;
    }
  }

  /** The joining place in terms of the list before the change. */
  lemma JoinPlaceIs(l: Level, a: nat)
    requires LevelOk(l) && a in l.list
    ensures LevelOk(Unlinked(l, a))
    ensures var n, ia, c := |l.list|, IndexOf(l.list, a), IndexOf(l.list, l.prev.value);
      JoinPlace(Unlinked(l, a)) ==
        if c == ia then if ia > 0 then n - 1 - ia else 0
        else if c < ia then n - 2 - c else n - 1 - c
  {
    hide IndexOf, Without, NoDup, Upcoming, Unlinked, JoinPlace;
    UnlinkKeepsRotation(l, a);
    var s, ia, c := l.list, IndexOf(l.list, a), IndexOf(l.list, l.prev.value);
    if |s| == 1 {
      JoinAlone(l, a);
    } else if c == ia {
      JoinCursor(l, a);
    } else {
      JoinOther(l, a);
    }
  }

  lemma JoinAlone(l: Level, a: nat)
    requires LevelOk(l) && a in l.list && |l.list| == 1 && LevelOk(Unlinked(l, a))
    ensures JoinPlace(Unlinked(l, a)) == 0 && IndexOf(l.list, a) == IndexOf(l.list, l.prev.value) == 0
  {
    assert l.list == [a];
  }

  lemma JoinCursor(l: Level, a: nat)
    requires LevelOk(l) && a in l.list && |l.list| > 1 && l.prev == Some(a) && LevelOk(Unlinked(l, a))
    ensures var n, ia := |l.list|, IndexOf(l.list, a);
      JoinPlace(Unlinked(l, a)) == if ia > 0 then n - 1 - ia else 0
  {
    hide IndexOf, Without, NoDup, Succ, Pred;
    var s, ia := l.list, IndexOf(l.list, a);
    WithoutMembers(s, a);
    WithoutAt(s, ia);
    CursorPred(s, ia);
    var r := Without(s, a);
    var p := if ia > 0 then ia - 1 else |r| - 1;
    assert r[p] == s[if ia > 0 then ia - 1 else |s| - 1];
    IndexIs(r, p);
    assert Unlinked(l, a) == Level(r, Some(r[p]));
  }

  lemma JoinOther(l: Level, a: nat)
    requires LevelOk(l) && a in l.list && |l.list| > 1 && l.prev != Some(a) && LevelOk(Unlinked(l, a))
    ensures var n, ia, c := |l.list|, IndexOf(l.list, a), IndexOf(l.list, l.prev.value);
      JoinPlace(Unlinked(l, a)) == if c < ia then n - 2 - c else n - 1 - c
  {
    hide IndexOf, Without, NoDup, Succ, Pred;
    var s, ia, c := l.list, IndexOf(l.list, a), IndexOf(l.list, l.prev.value);
    WithoutMembers(s, a);
    WithoutAt(s, ia);
    AloneNot(s, a);
    var r := Without(s, a);
    var p := if c < ia then c else c - 1;
    assert r[p] == s[c];
    IndexIs(r, p);
    assert Unlinked(l, a) == Level(r, Some(r[p]));
  }

  lemma AloneNot(s: seq<nat>, a: nat)
    requires NoDup(s) && a in s && |s| > 1
    ensures Succ(s, a) != a
  {
  }

  /** When the task at the cursor changes its weight to the same level, every other task behind its joining
      place is put back by exactly one, and the others stay where they are. */
  lemma RelinkPutsBack(l: Level, a: nat, x: nat)
    requires LevelOk(l) && l.prev == Some(a) && x in l.list && x != a
    ensures LevelOk(Unlinked(l, a)) && x in Upcoming(l) && x in Upcoming(Relinked(l, a))
    ensures IndexOf(Upcoming(Relinked(l, a)), x) ==
      IndexOf(Upcoming(l), x) + if IndexOf(Upcoming(l), x) >= JoinPlace(Unlinked(l, a)) then 1 else 0
  {
    hide Upcoming, IndexOf, Without, NoDup, Unlinked, JoinPlace;
    RelinkPlace(l, a);
    RotationMembers(l);
    WholeRotation(l);
    var u, i := Without(Upcoming(l), a), JoinPlace(Unlinked(l, a));
    var c := IndexOf(l.list, a);
    assert l == Level(l.list, Some(l.list[c]));
    PlaceIs(l.list, c, c);
    InsertIs(Upcoming(l), a);
    assert Upcoming(l) == u + [a];
    WithoutMembers(Upcoming(l), a);
    IndexInserted(u, a, |u|, x);
    IndexInserted(u, a, i, x);
    assert u[..|u|] + [a] + u[|u|..] == u + [a];
  }

  lemma IndexInserted(u: seq<nat>, a: nat, i: nat, x: nat)
    requires NoDup(u) && a !in u && x in u && i <= |u|
    ensures var r := u[..i] + [a] + u[i..];
      x in r && IndexOf(r, x) == IndexOf(u, x) + if IndexOf(u, x) >= i then 1 else 0
  {
    hide IndexOf;
    var r, j := u[..i] + [a] + u[i..], IndexOf(u, x);
    var k := if j >= i then j + 1 else j;
    assert r[k] == x;
    NoDupInsert(u, a, i);
    hide NoDup;
    IndexIs(r, k);
  }

  lemma NoDupInsert(u: seq<nat>, a: nat, i: nat)
    requires NoDup(u) && a !in u && i <= |u|
    ensures NoDup(u[..i] + [a] + u[i..])
  {
    var r := u[..i] + [a] + u[i..];
    forall x, y | 0 <= x < y < |r| ensures r[x] != r[y] {
      assert x != i ==> r[x] == u[if x < i then x else x - 1] && r[x] in u;
      assert y != i ==> r[y] == u[if y < i then y else y - 1] && r[y] in u;
    }
  }

  /** With the cursor and the changed task on the tail, change and selection together change nothing: the
      same task is selected again, and everyone else is where they were. */
  lemma RelinkedTailRepeats(l: Level, a: nat)
    requires LevelOk(l) && |l.list| >= 2 && l.prev == Some(a) && l.list[|l.list| - 1] == a
    ensures LevelOk(Unlinked(l, a)) && LevelOk(Relinked(l, a)) && |Unlinked(l, a).list| >= 1
    ensures Relinked(l, a).list == l.list && Turned(Relinked(l, a)) == l
  {
    hide IndexOf, Without, NoDup, Upcoming;
    RelinkPlace(l, a);
    var s, n := l.list, |l.list|;
    WithoutMembers(s, a);
    WithoutAt(s, n - 1);
    IndexIs(s, n - 1);
    CursorPred(s, n - 1);
    assert s == s[..n - 1] + [a] && s[..n - 1] + s[n..] == s[..n - 1];
    IndexIs(s, n - 2);
  }
}
