/** The 64-bit tick counter on a 32-bit machine: the writer stores the high half, then the low half; the
    reader loads high, low, high and tries again when the high half changed. */
module TickCounter {

  const HALF: nat := 0x1_0000_0000

  function Hi(v: nat): nat { v / HALF }
  function Lo(v: nat): (r: nat) ensures r < HALF { v % HALF }
  function Join(hi: nat, lo: nat): nat { hi * HALF + lo }

  lemma JoinHalves(v: nat)
    ensures Join(Hi(v), Lo(v)) == v
  {
  }

  lemma JoinHigh(hi: nat, v: nat)
    ensures Join(hi, Lo(v)) == v <==> hi == Hi(v)
  {
    JoinHalves(v);
  }

  lemma HiMonotone(v: nat, w: nat)
    requires v <= w
    ensures Hi(v) <= Hi(w)
  {
  }

  ghost predicate Grows(vs: seq<nat>) {
    forall i, j :: 0 <= i < j < |vs| ==> vs[i] <= vs[j]
  }

  // ---- memory over time -----------------------------------------------------------------------

  /** Every state that the two words go through while the values `vs` are written one after another. */
  function Timeline(vs: seq<nat>): (t: seq<(nat, nat)>)
    requires |vs| > 0
    ensures |t| == 2 * |vs| - 1
  {
    var v := vs[|vs| - 1];
    if |vs| == 1 then [(Hi(v), Lo(v))]
    else Timeline(vs[..|vs| - 1]) + [(Hi(v), Lo(vs[|vs| - 2])), (Hi(v), Lo(v))]
  }

  /** At time `t` the high half belongs to the write that started last, the low half to the one that ended
      last: they differ at odd times, between the two stores of a write. */
  lemma {:induction false} TimelineAt(vs: seq<nat>, t: nat)
    requires 0 < |vs| && t < 2 * |vs| - 1
    ensures Timeline(vs)[t] == (Hi(vs[(t + 1) / 2]), Lo(vs[t / 2]))
    decreases |vs|
  {
    if |vs| > 1 && t < 2 * |vs| - 3 {
      TimelineAt(vs[..|vs| - 1], t);
    }
  }

  /** The counter's words with their history. */
  class Counter {
    var hi: nat
    var lo: nat
    ghost var written: seq<nat>
    ghost var trace: seq<(nat, nat)>

    ghost predicate Valid()
      reads this
    {
      |written| > 0 && trace == Timeline(written) && trace[|trace| - 1] == (hi, lo) &&
      Join(hi, lo) == written[|written| - 1]
    }

    constructor ()
      ensures Valid() && written == [0]
    {
      hi, lo := 0, 0;
      written, trace := [0], [(0, 0)];
    }

    /** WriteVolatile64: two stores, high half first. */
    method WriteVolatile64(v: nat)
      requires Valid() && v < HALF * HALF
      modifies this
      ensures Valid() && written == old(written) + [v]
    {
      ghost var was := written;
      TimelineAt(was, |trace| - 1);
      hi := Hi(v);
      trace := trace + [(hi, lo)];
      lo := Lo(v);
      trace := trace + [(hi, lo)];
      written := written + [v];
      JoinHalves(v);
      assert written[..|written| - 1] == was;
    }

    /** IncrementTicks: the single writer advances the counter, which therefore only grows. */
    method IncrementTicks(advance: nat)
      requires Valid() && Grows(written) && Join(hi, lo) + advance < HALF * HALF
      modifies this
      ensures Valid() && Grows(written) && Join(hi, lo) == old(Join(hi, lo)) + advance
      ensures written == old(written) + [old(Join(hi, lo)) + advance]
    {
      WriteVolatile64(Join(hi, lo) + advance);
    }
  }

  // ---- reading --------------------------------------------------------------------------------

  /** The loads of high half and low half fell between the two stores of one write that changed the high
      half: the only case that the protocol does not notice. */
  predicate Torn(vs: seq<nat>, a: nat, b: nat)
    requires a <= b < 2 * |vs| - 1
  {
    a == b && a % 2 == 1 && Hi(vs[a / 2]) != Hi(vs[a / 2 + 1])
  }

  /** Three loads at times a, b, c with equal high halves give the value that was last completely written at
      the time of the low load, except exactly in the torn case. */
  lemma ReadExact(vs: seq<nat>, a: nat, b: nat, c: nat)
    requires Grows(vs) && a <= b <= c < 2 * |vs| - 1
    requires Timeline(vs)[a].0 == Timeline(vs)[c].0
    ensures Join(Timeline(vs)[a].0, Timeline(vs)[b].1) == vs[b / 2] <==> !Torn(vs, a, b)
  {
    hide Timeline, Hi, Lo, Join, Grows;
    TimelineAt(vs, a);
    TimelineAt(vs, b);
    TimelineAt(vs, c);
    var first, last, mid := (a + 1) / 2, (c + 1) / 2, b / 2;
    JoinHigh(Hi(vs[first]), vs[mid]);
    if first <= mid {
      HiBetween(vs, first, mid, last);
    } else {
      assert first == mid + 1;
    }
  }

  lemma HiBetween(vs: seq<nat>, i: nat, j: nat, k: nat)
    requires Grows(vs) && i <= j <= k < |vs| && Hi(vs[i]) == Hi(vs[k])
    ensures Hi(vs[j]) == Hi(vs[i])
  {
    hide Hi;
    assert vs[i] <= vs[j] <= vs[k];
    HiMonotone(vs[i], vs[j]);
    HiMonotone(vs[j], vs[k]);
  }

  /** A torn read runs ahead: with steps below 2^32 it returns the value before the write plus 2^32, which is
      more than the value just being written. */
  lemma TornValue(vs: seq<nat>, a: nat)
    requires Grows(vs) && a < 2 * |vs| - 1 && Torn(vs, a, a)
    requires vs[a / 2 + 1] < vs[a / 2] + HALF
    ensures Join(Timeline(vs)[a].0, Timeline(vs)[a].1) == vs[a / 2] + HALF > vs[a / 2 + 1]
  {
    TimelineAt(vs, a);
    var v, w := vs[a / 2], vs[a / 2 + 1];
    assert v <= w;
    JoinHalves(v);
    JoinHalves(w);
    HiMonotone(v, w);
    assert Hi(w) == Hi(v) + 1;
  }

  /** Such a read exists: one step past 2^32 - 1, both loads between the two stores. */
  lemma TornExample()
    ensures var vs := [0xFFFF_FFFF, 0x1_0000_0000];
      Grows(vs) && Join(Timeline(vs)[1].0, Timeline(vs)[1].1) == 0x1_FFFF_FFFF && Timeline(vs)[1].0 == Timeline(vs)[2].0
  {
    var vs := [0xFFFF_FFFF, 0x1_0000_0000];
    TimelineAt(vs, 1);
    TimelineAt(vs, 2);
  }

  /** Load times in program order, three a round. */
  ghost predicate LoadTimes(at: seq<nat>, end: nat) {
    |at| % 3 == 0 && (forall i :: 0 <= i < |at| ==> at[i] < end) &&
    forall i, j :: 0 <= i <= j < |at| ==> at[i] <= at[j]
  }

  datatype Outcome = Spinning | Got(value: nat)

  /** ReadVolatile64 against every timing: `mem` is the history of the words, `at` the times of the loads.
      The value is the one held at the low load of the last round unless that round is torn; each retry has
      seen the high half grow, so there are no more retries than steps of the high half. */
  method ReadVolatile64(vs: seq<nat>, mem: seq<(nat, nat)>, at: seq<nat>) returns (r: Outcome, k: nat)
    requires |vs| > 0 && Grows(vs) && mem == Timeline(vs) && LoadTimes(at, |mem|)
    ensures 3 * k <= |at| && (r.Spinning? <==> 3 * k == |at|)
    ensures forall j :: 0 <= j < k ==> mem[at[3 * j]].0 != mem[at[3 * j + 2]].0
    ensures r.Got? ==> (r.value == vs[at[3 * k + 1] / 2] <==> !Torn(vs, at[3 * k], at[3 * k + 1]))
    ensures k <= Hi(vs[|vs| - 1]) - Hi(vs[0])
  {
    hide Timeline, Hi, Lo, Join, Torn, Grows;
    k := 0;
    r := Spinning;
    ghost var low := Hi(vs[0]);
    TimelineAt(vs, 0);
    TimelineAt(vs, |mem| - 1);
    HiGrows(vs, 0, |mem| - 1);
    if |at| > 0 { HiGrows(vs, 0, at[0]); }
    while 3 * k < |at|
      invariant 3 * k <= |at| && r == Spinning
      invariant forall j :: 0 <= j < k ==> mem[at[3 * j]].0 != mem[at[3 * j + 2]].0
      invariant low >= Hi(vs[0]) + k && low <= Hi(vs[|vs| - 1])
      invariant 3 * k < |at| ==> low <= mem[at[3 * k]].0
    {
      assert at[3 * k] <= at[3 * k + 1] <= at[3 * k + 2];
      var hi := mem[at[3 * k]].0;
      var lo := mem[at[3 * k + 1]].1;
      if hi == mem[at[3 * k + 2]].0 {
        r := Got(Join(hi, lo));
        ReadExact(vs, at[3 * k], at[3 * k + 1], at[3 * k + 2]);
        return;
      }
      HiGrows(vs, at[3 * k], at[3 * k + 2]);
      HiGrows(vs, at[3 * k + 2], |mem| - 1);
      low := mem[at[3 * k + 2]].0;
      k := k + 1;
      if 3 * k < |at| { HiGrows(vs, at[3 * k - 1], at[3 * k]); }
    }
  }

  lemma HiGrows(vs: seq<nat>, a: nat, b: nat)
    requires Grows(vs) && a <= b < 2 * |vs| - 1
    ensures Timeline(vs)[a].0 <= Timeline(vs)[b].0
  {
    hide Timeline, Hi, Lo;
    TimelineAt(vs, a);
    TimelineAt(vs, b);
    var i, j := (a + 1) / 2, (b + 1) / 2;
    assert vs[i] <= vs[j];
    HiMonotone(vs[i], vs[j]);
  }

  /** A writer that is not interrupted between its stores, as the tick interrupt is on one core: loads see
      even times only, and no read is torn. */
  lemma UninterruptedIsExact(vs: seq<nat>, a: nat, b: nat, c: nat)
    requires Grows(vs) && a <= b <= c < 2 * |vs| - 1 && a % 2 == 0
    requires Timeline(vs)[a].0 == Timeline(vs)[c].0
    ensures Join(Timeline(vs)[a].0, Timeline(vs)[b].1) == vs[b / 2]
  {
    ReadExact(vs, a, b, c);
  }
}
