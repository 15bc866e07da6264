/** The fixed-priority strategy as the object that the kernel calls; each method is proved to do what the
    functions on values say, and to keep standing for the kernel's ledger. */
module FixedPriorityImpl {
  import opened KernelTypes
  import opened KernelSpec
  import opened KernelInv
  import opened Rotation
  import opened FixedPriority
  import F = FixedPriority

  class Strategy {
    const lists: array<seq<nat>>
    const prev: array<Option<nat>>
    var sleep: seq<nat>
    var ready: set<nat>
    const noSleepYield: bool

    ghost function View(): Fp
      reads this, lists, prev
    {
      Fp(lists[..], prev[..], sleep, ready)
    }

    /** The object stands for the ledger `g`. */
    ghost predicate Holds(g: Ledger)
      reads this, lists, prev
    {
      FpInv(View(), g) && lists.Length == prev.Length
    }

    constructor (max: nat, noSleepYield: bool)
      ensures View() == NewFp(max) && Holds(EMPTY_LEDGER) && fresh(lists) && fresh(prev)
      ensures this.noSleepYield == noSleepYield
    {
      lists := new seq<nat>[max](_ => []);
      prev := new Option<nat>[max](_ => None);
      sleep, ready := [], {};
      this.noSleepYield := noSleepYield;
      new;
      NewKeeps(max);
      assert View() == NewFp(max);
    }

    method AddActive(x: nat, p: nat)
      requires lists.Length == prev.Length && p < lists.Length
      modifies this`ready, lists, prev
      ensures View() == F.AddActive(old(View()), p, x)
    {
      ghost var f := View();
      lists[p] := lists[p] + [x];
      if |lists[p]| == 1 {
        prev[p] := Some(x);
        ready := ready + {p};
      }
      assert lists[..] == f.lists[p := f.lists[p] + [x]];
      assert prev[..] == f.prev[p := if f.lists[p] == [] then Some(x) else f.prev[p]];
    }

    method RemoveActive(x: nat, p: nat)
      requires lists.Length == prev.Length && p < lists.Length && LevelOk(LevelAt(View(), p)) && x in lists[p]
      modifies this`ready, lists, prev
      ensures View() == F.RemoveActive(old(View()), p, x)
    {
      ghost var f := View();
      var next := Succ(lists[p], x);
      lists[p] := Without(lists[p], x);
      if next == x {
        prev[p] := None;
        ready := ready - {p};
      } else if prev[p] == Some(x) {
        SuccStays(f.lists[p], x);
        prev[p] := Some(Pred(lists[p], next));
      }
      assert lists[..] == f.lists[p := Unlinked(LevelAt(f, p), x).list];
      assert prev[..] == f.prev[p := Unlinked(LevelAt(f, p), x).prev];
    }

    method AddTask(x: nat, w: nat, ghost g: Ledger)
      requires Holds(g) && Legal(g, Added(x, w)) && w < lists.Length
      modifies this`ready, lists, prev
      ensures View() == Hear(old(View()), g, Added(x, w)) && Holds(Post(g, Added(x, w)))
    {
      ghost var f := View();
      HearKeeps(f, g, Added(x, w));
      var tail := if lists[w] == [] then None else Some(lists[w][|lists[w]| - 1]);
      var isTail := prev[w] == tail;
      AddActive(x, w);
      ghost var f1 := View();
      if isTail {
        prev[w] := Some(x);
      }
      assert lists[..] == f1.lists[w := Joined(LevelAt(f, w), x).list];
      assert prev[..] == f1.prev[w := Joined(LevelAt(f, w), x).prev];
    }

    method RemoveTask(x: nat, w: nat, ghost g: Ledger)
      requires Holds(g) && Legal(g, Removed(x, w))
      modifies this`sleep, this`ready, lists, prev
      ensures View() == Hear(old(View()), g, Removed(x, w)) && Holds(Post(g, Removed(x, w)))
    {
      HearKeeps(View(), g, Removed(x, w));
      if x in sleep {
        sleep := Without(sleep, x);
      } else {
        RemoveActiveKeeps(View(), g, x);
        RemoveActive(x, w);
      }
    }

    method OnTaskSleep(x: nat, w: nat, ghost g: Ledger)
      requires Holds(g) && Legal(g, Slept(x, w))
      modifies this`sleep, this`ready, lists, prev
      ensures View() == Hear(old(View()), g, Slept(x, w)) && Holds(Post(g, Slept(x, w)))
    {
      HearKeeps(View(), g, Slept(x, w));
      RemoveActiveKeeps(View(), g, x);
      RemoveActive(x, w);
      sleep := sleep + [x];
    }

    method OnTaskWake(x: nat, w: nat, ghost g: Ledger)
      requires Holds(g) && Legal(g, Woke(x, w)) && w < lists.Length
      modifies this`sleep, this`ready, lists, prev
      ensures View() == Hear(old(View()), g, Woke(x, w)) && Holds(Post(g, Woke(x, w)))
    {
      HearKeeps(View(), g, Woke(x, w));
      sleep := Without(sleep, x);
      AddActive(x, w);
    }

    method OnTaskWeightChange(x: nat, oldW: nat, w: nat, ghost g: Ledger)
      requires Holds(g) && Legal(g, Reweighed(x, oldW, w)) && w < lists.Length
      modifies this`ready, lists, prev
      ensures View() == Hear(old(View()), g, Reweighed(x, oldW, w)) && Holds(Post(g, Reweighed(x, oldW, w)))
    {
      HearKeeps(View(), g, Reweighed(x, oldW, w));
      if x !in sleep {
        RemoveActiveKeeps(View(), g, x);
        RemoveActive(x, oldW);
        AddActive(x, w);
      }
    }

    /** Handled exactly when the strategy supports it and the task is runnable. The cursor of its level is then on
        the task, nothing else has changed, and unless a runnable task weighs more, the next selection is the
        successor of the task in its list. */
    method OnTaskYield(x: nat, w: nat, ghost g: Ledger) returns (handled: bool)
      requires Holds(g) && w < lists.Length && (x in g.filed ==> g.filed[x] == w)
      modifies prev
      ensures handled == (noSleepYield && x in g.filed) && Holds(g)
      ensures View() == if handled then Hear(old(View()), g, Yielded(x)) else old(View())
      ensures handled ==> View() == old(View()).(prev := old(View()).prev[w := Some(x)])
      ensures handled && (forall j :: j in g.filed ==> g.filed[j] <= w) ==>
        (ReadyLevels(View(), g); x in lists[w] && F.GetNext(View()).0 == Some(Succ(lists[w], x)))
    {
      handled := false;
      assert LevelInv(View(), g, w);
      if noSleepYield && x in lists[w] {
        ghost var f := View();
        HearKeeps(f, g, Yielded(x));
        YieldSelectsSuccessor(f, g, x);
        prev[w] := Some(x);
        handled := true;
        assert prev[..] == f.prev[w := Some(x)];
      }
    }

    method GetNext(ghost g: Ledger) returns (next: Option<nat>)
      requires Holds(g)
      modifies prev
      ensures Holds(g) && (next.None? <==> g.filed == map[])
      ensures next.Some? ==> next.value in g.filed && forall j :: j in g.filed ==> g.filed[j] <= g.filed[next.value]
      ensures (ReadyLevels(old(View()), g); (next, View()) == F.GetNext(old(View())))
    {
      ghost var f := View();
      NextIsHighest(f, g);
      next := None;
      if ready != {} {
        var p := Highest(ready, lists.Length);
        next := Some(Succ(lists[p], prev[p].value));
        prev[p] := next;
        assert prev[..] == f.prev[p := next] && f.lists == f.lists[p := f.lists[p]];
      }
    }

    method GetFirst(ghost g: Ledger) returns (first: nat)
      requires Holds(g) && g.all != {}
      ensures first in g.all
      ensures g.filed != map[] ==> first in g.filed && forall j :: j in g.filed ==> g.filed[j] <= g.filed[first]
    {
      ReadyLevels(View(), g);
      FirstIsManaged(View(), g);
      if ready == {} {
        assert exists i :: i in g.all && i in sleep;
        first := sleep[0];
        assert sleep[0] in sleep;
      } else {
        var p := Highest(ready, lists.Length);
        assert LevelInv(View(), g, p) && lists[p][0] in lists[p];
        first := lists[p][0];
      }
    }

    /** GetSize counts every task that the strategy manages. */
    method GetSize(ghost g: Ledger) returns (total: nat)
      requires Holds(g)
      ensures total == |g.all|
    {
      total := |sleep|;
      var i := 0;
      SleepSize(View(), g);
      while i < lists.Length
        invariant 0 <= i <= lists.Length
        invariant total == |Below(g, i)|
      {
        assert LevelInv(View(), g, i);
        BelowStep(View(), g, i);
        total := total + |lists[i]|;
        i := i + 1;
      }
      BelowAll(View(), g);
    }
  }

  // ---- counting -------------------------------------------------------------------------------

  /** The sleeping tasks and those on the levels below `n`. */
  ghost function Below(g: Ledger, n: nat): set<nat> {
    set i | i in g.all && (i in g.filed ==> g.filed[i] < n)
  }

  /** The tasks on level `n`. */
  ghost function On(g: Ledger, n: nat): set<nat> {
    set i | i in g.all && i in g.filed && g.filed[i] == n
  }

  lemma {:induction false} SetSize(s: seq<nat>, t: set<nat>)
    requires NoDup(s) && forall i: nat :: i in t <==> i in s
    ensures |t| == |s|
    decreases |s|
  {
    if s == [] {
      assert t == {};
    } else {
      var k := |s| - 1;
      var x := s[k];
      assert s == s[..k] + [x];
      SetSize(s[..k], t - {x});
      assert t == (t - {x}) + {x};
    }
  }

  lemma SleepSize(f: Fp, g: Ledger)
    requires FpInv(f, g)
    ensures |f.sleep| == |Below(g, 0)|
  {
    SetSize(f.sleep, Below(g, 0));
  }

  lemma BelowStep(f: Fp, g: Ledger, i: nat)
    requires FpInv(f, g) && i < |f.lists|
    ensures |Below(g, i + 1)| == |Below(g, i)| + |f.lists[i]|
  {
    assert LevelInv(f, g, i);
    SetSize(f.lists[i], On(g, i));
    hide FpInv, LevelInv, NoDup;
    assert Below(g, i + 1) == Below(g, i) + On(g, i) && Below(g, i) !! On(g, i);
  }

  lemma BelowAll(f: Fp, g: Ledger)
    requires FpInv(f, g)
    ensures Below(g, |f.lists|) == g.all
  {
  }
}
