/** The ring shared by a writer on the target and a reader on the host: every load, byte copy and store of an
    offset is a step of its own, and the steps of the two sides interleave freely. */
module RttConcurrent {
  import opened RttRing

  /** The writer: idle, about to load the read offset, or copying `n` bytes of which `k` are done. */
  datatype Producer =
    | PIdle
    | PWait(rest: seq<byte>)
    | PCopy(rest: seq<byte>, n: nat, k: nat)

  /** The reader: idle, or holding the write offset it loaded, its own read offset, the room left in its
      buffer, the bytes left in this chunk, whether it is in the chunk after the wrap, and its bytes so far. */
  datatype Consumer =
    | CIdle
    | CRead(w: nat, off: nat, left: nat, chunk: nat, second: bool, out: seq<byte>)

  /** Shared ring, local states, and the histories: bytes accepted from the callers, bytes made visible by a
      store of the write offset, bytes handed out by completed reads. */
  datatype Sys = Sys(buf: seq<byte>, rd: nat, wr: nat, prod: Producer, cons: Consumer,
    submitted: seq<byte>, published: seq<byte>, delivered: seq<byte>)

  datatype Move =
    | Submit(data: seq<byte>)     // _WriteBlocking is entered
    | Sample                      // it loads the read offset and sizes its chunk
    | Skip(data: seq<byte>)       // WriteSkip is entered and loads the read offset
    | Copy                        // the writer stores one byte
    | Publish                     // the writer stores the write offset
    | Read(cap: nat)              // a read is entered and loads the write offset
    | Take                        // the reader copies one byte
    | Turn                        // the reader sizes its second chunk
    | Release                     // the reader stores the read offset

  function Room(s: Sys): (n: int)
    requires s.rd < |s.buf| && s.wr < |s.buf|
    ensures 0 <= n < |s.buf|
  {
    |s.buf| - 1 - |Stored(s.buf, s.rd, s.wr)|
  }

  function NewSys(buf: seq<byte>): Sys {
    Sys(buf, 0, 0, PIdle, CIdle, [], [], [])
  }

  // ---- steps ----------------------------------------------------------------------------------

  predicate Enabled(s: Sys, m: Move) {
    match m
    case Submit(_) => s.prod.PIdle?
    case Skip(_) => s.prod.PIdle?
    case Sample => s.prod.PWait?
    case Copy => s.prod.PCopy? && s.prod.k < s.prod.n
    case Publish => s.prod.PCopy? && s.prod.k == s.prod.n
    case Read(cap) => s.cons.CIdle? && cap < U32
    case Take => s.cons.CRead? && s.cons.chunk > 0
    case Turn => s.cons.CRead? && s.cons.chunk == 0 && !s.cons.second
    case Release => s.cons.CRead? && s.cons.chunk == 0 && s.cons.second
  }

  function Apply(s: Sys, m: Move): (t: Sys)
    requires Inv(s) && Enabled(s, m)
    ensures |t.buf| == |s.buf|
  {
    var size := |s.buf|;
    match m
    case Submit(data) => s.(prod := PWait(data), submitted := s.submitted + data)
    case Sample =>
      var n := if s.rd > s.wr then s.rd - s.wr - 1 else size - (s.wr - s.rd + 1);
      s.(prod := PCopy(s.prod.rest, MinNat(MinNat(n, size - s.wr), |s.prod.rest|), 0))
    case Skip(data) =>
      if |data| <= Room(s) then s.(prod := PCopy(data, |data|, 0), submitted := s.submitted + data) else s
    case Copy =>
      s.(buf := s.buf[Step(size, s.wr, s.prod.k) := s.prod.rest[s.prod.k]], prod := s.prod.(k := s.prod.k + 1))
    case Publish =>
      var rest := s.prod.rest[s.prod.n..];
      s.(wr := Step(size, s.wr, s.prod.n), prod := if rest == [] then PIdle else PWait(rest),
        published := s.published + s.prod.rest[..s.prod.n])
    case Read(cap) =>
      s.(cons := CRead(s.wr, s.rd, cap, if s.rd > s.wr then MinNat(size - s.rd, cap) else 0, false, []))
    case Take =>
      var c := s.cons;
      s.(cons := c.(off := c.off + 1, left := c.left - 1, chunk := c.chunk - 1, out := c.out + [s.buf[c.off]]))
    case Turn =>
      var off := if s.cons.off == size then 0 else s.cons.off;
      s.(cons := s.cons.(off := off, chunk := MinNat(Sub32(s.cons.w, off), s.cons.left), second := true))
    case Release =>
      s.(rd := if s.cons.out != [] then s.cons.off else s.rd, cons := CIdle, delivered := s.delivered + s.cons.out)
  }

  // ---- invariant ------------------------------------------------------------------------------

  predicate Shaped(s: Sys) {
    s.rd < |s.buf| && s.wr < |s.buf| < U32
  }

  /** What the writer relies on: its chunk fits whatever the reader does, and the copied bytes are in place. */
  predicate ProdInv(s: Sys)
    requires Shaped(s)
  {
    s.prod.PCopy? ==>
      s.prod.k <= s.prod.n <= |s.prod.rest| && s.prod.n <= Room(s) &&
      forall j: nat :: j < s.prod.k ==> s.buf[Step(|s.buf|, s.wr, j)] == s.prod.rest[j]
  }

  /** What the reader relies on: the data up to the offset it loaded stays in the ring. */
  predicate ConsInv(s: Sys)
    requires Shaped(s)
  {
    s.cons.CRead? ==>
      var c := s.cons;
      c.w < |s.buf| && |c.out| <= |Stored(s.buf, s.rd, c.w)| <= |Stored(s.buf, s.rd, s.wr)| &&
      c.chunk <= c.left && |c.out| + c.left < U32 &&
      c.out == Stored(s.buf, s.rd, s.wr)[..|c.out|] && Position(|s.buf|, s.rd, c)
  }

  /** Where the reader is in its two chunks. */
  predicate Position(size: nat, rd: nat, c: Consumer)
    requires c.CRead? && rd < size && c.w < size
  {
    if !c.second then
      if rd > c.w then
        c.off == rd + |c.out| && c.off + c.chunk <= size && (c.off + c.chunk == size || c.chunk == c.left)
      else c.out == [] && c.off == rd && c.chunk == 0
    else
      |c.out| <= size && c.off == Step(size, rd, |c.out|) && (c.chunk > 0 ==> c.off + c.chunk <= c.w) &&
      |c.out| + c.chunk == MinNat(|c.out| + c.left, if rd <= c.w then c.w - rd else size - rd + c.w)
  }

  /** The bytes still to be published by the writer. */
  function Pending(p: Producer): seq<byte> {
    if p.PIdle? then [] else p.rest
  }

  predicate Fifo(s: Sys)
    requires Shaped(s)
  {
    s.published == s.delivered + Stored(s.buf, s.rd, s.wr) &&
    s.submitted == s.published + Pending(s.prod)
  }

  predicate Inv(s: Sys) {
    Shaped(s) && ProdInv(s) && ConsInv(s) && Fifo(s)
  }

  // ---- every step keeps it --------------------------------------------------------------------

  lemma CopyKeeps(s: Sys)
    requires Inv(s) && Enabled(s, Copy)
    ensures Inv(Apply(s, Copy))
  {
    hide Stored;
    var t := Apply(s, Copy);
    CopyElsewhere(s.buf, s.rd, s.wr, s.prod.k, s.prod.rest[s.prod.k]);
    assert Fifo(t) && ConsInv(t);
  }

  /** A byte behind the write offset, within the free space, is not stored data. */
  lemma CopyElsewhere(buf: seq<byte>, rd: nat, wr: nat, k: nat, b: byte)
    requires rd < |buf| && wr < |buf| && k + |Stored(buf, rd, wr)| < |buf| - 1
    ensures Stored(buf[Step(|buf|, wr, k) := b], rd, wr) == Stored(buf, rd, wr)
  {
    var after, was := buf[Step(|buf|, wr, k) := b], Stored(buf, rd, wr);
    forall i: nat | i < |was| ensures after[Step(|buf|, rd, i)] == was[i] { StoredAt(buf, rd, wr, i); }
    StoredExt(after, rd, wr, was);
  }

  lemma PublishKeeps(s: Sys)
    requires Inv(s) && Enabled(s, Publish)
    ensures Inv(Apply(s, Publish))
  {
    hide Stored;
    var t := Apply(s, Publish);
    var chunk := s.prod.rest[..s.prod.n];
    Appended(s.buf, s.buf, s.rd, s.wr, t.wr, chunk);
    var was := Stored(s.buf, s.rd, s.wr);
    assert s.delivered + was + chunk == s.delivered + (was + chunk);
    assert s.published + s.prod.rest == s.published + chunk + Pending(t.prod) by {
      assert s.prod.rest == chunk + s.prod.rest[s.prod.n..];
    }
    assert s.cons.CRead? ==> (was + chunk)[..|s.cons.out|] == was[..|s.cons.out|];
  }

  lemma TakeKeeps(s: Sys)
    requires Inv(s) && Enabled(s, Take)
    ensures Inv(Apply(s, Take))
  {
    hide Stored;
    var c, data := s.cons, Stored(s.buf, s.rd, s.wr);
    StoredAt(s.buf, s.rd, s.wr, |c.out|);
    assert data[..|c.out| + 1] == data[..|c.out|] + [data[|c.out|]];
  }

  lemma TurnKeeps(s: Sys)
    requires Inv(s) && Enabled(s, Turn)
    ensures Inv(Apply(s, Turn))
  {
    hide Sub32;
  }

  lemma ReleaseKeeps(s: Sys)
    requires Inv(s) && Enabled(s, Release)
    ensures Inv(Apply(s, Release))
    ensures |s.cons.out| == MinNat(|s.cons.out| + s.cons.left, |Stored(s.buf, s.rd, s.cons.w)|)
  {
    hide Stored;
    var c, data, t := s.cons, Stored(s.buf, s.rd, s.wr), Apply(s, Release);
    ReadSplit(s.buf, s.rd, s.wr, |c.out|);
    assert t.rd == Step(|s.buf|, s.rd, |c.out|);
    assert ProdInv(t);
    assert s.delivered + data == s.delivered + data[..|c.out|] + data[|c.out|..];
  }

  lemma StepKeeps(s: Sys, m: Move)
    requires Inv(s) && Enabled(s, m)
    ensures Inv(Apply(s, m))
  {
    hide Inv;
    match m
    case Copy => CopyKeeps(s);
    case Publish => PublishKeeps(s);
    case Take => TakeKeeps(s);
    case Turn => TurnKeeps(s);
    case Release => ReleaseKeeps(s);
    case Submit(data) => EnterKeeps(s, m);
    case Skip(data) => EnterKeeps(s, m);
    case Sample => EnterKeeps(s, m);
    case Read(cap) => EnterKeeps(s, m);
  }

  /** Entering a write or a read, and sizing a chunk. */
  lemma EnterKeeps(s: Sys, m: Move)
    requires Inv(s) && Enabled(s, m) && (m.Submit? || m.Skip? || m.Sample? || m.Read?)
    ensures Inv(Apply(s, m))
  {
    hide Stored;
    if m.Submit? || m.Skip? {
      assert s.submitted + m.data == s.published + (Pending(s.prod) + m.data);
    }
  }

  // ---- whole runs -----------------------------------------------------------------------------

  /** The state after a schedule of moves; a move whose party is not ready for it changes nothing. */
  function After(s: Sys, ms: seq<Move>): (r: Sys)
    requires Inv(s)
    ensures Inv(r) && |r.buf| == |s.buf|
    decreases |ms|
  {
    if ms == [] then s
    else
      var m := ms[|ms| - 1];
      var p := After(s, ms[..|ms| - 1]);
      if Enabled(p, m) then StepKeeps(p, m); Apply(p, m) else p
  }

  /** Under every interleaving the bytes delivered, followed by those in the ring, are the bytes published;
      followed by what the writer still holds, they are the bytes accepted. */
  lemma InterleavingsAreFifo(buf: seq<byte>, ms: seq<Move>)
    requires 1 <= |buf| < U32
    ensures Inv(NewSys(buf))
    ensures var s := After(NewSys(buf), ms);
      s.rd < |s.buf| && s.wr < |s.buf| == |buf| &&
      s.published == s.delivered + Stored(s.buf, s.rd, s.wr) &&
      s.submitted == s.delivered + Stored(s.buf, s.rd, s.wr) + Pending(s.prod)
  {
    assert Stored(buf, 0, 0) == [];
  }

  /** A read that was entered in `s` is still under way in `t`. */
  ghost predicate ReadSince(s: Sys, cap: nat, t: Sys)
    requires Inv(s) && Inv(t)
  {
    t.cons.CRead? && t.cons.w == s.wr && t.rd == s.rd && |t.buf| == |s.buf| && t.delivered == s.delivered &&
    |t.cons.out| + t.cons.left == cap && s.published <= t.published
  }

  lemma {:induction false} ReadGoesOn(s: Sys, cap: nat, ms: seq<Move>)
    requires Inv(s) && Enabled(s, Read(cap)) && Release !in ms
    ensures (StepKeeps(s, Read(cap)); ReadSince(s, cap, After(Apply(s, Read(cap)), ms)))
    decreases |ms|
  {
    StepKeeps(s, Read(cap));
    if ms != [] {
      var m, p := ms[|ms| - 1], After(Apply(s, Read(cap)), ms[..|ms| - 1]);
      ReadGoesOn(s, cap, ms[..|ms| - 1]);
      if Enabled(p, m) { ReadStep(s, cap, p, m); }
    }
  }

  lemma ReadStep(s: Sys, cap: nat, p: Sys, m: Move)
    requires Inv(s) && Inv(p) && ReadSince(s, cap, p) && Enabled(p, m) && m != Release
    ensures Inv(Apply(p, m)) && ReadSince(s, cap, Apply(p, m))
  {
    StepKeeps(p, m);
    hide Fifo, ProdInv;
  }

  /** A read hands out the longest prefix that fits of what was stored when it loaded the write offset,
      however the writer moves meanwhile. */
  lemma ReadReturnsSnapshot(s: Sys, cap: nat, ms: seq<Move>)
    requires Inv(s) && Enabled(s, Read(cap)) && Release !in ms
    ensures
      (StepKeeps(s, Read(cap));
       var t := After(Apply(s, Read(cap)), ms);
       Enabled(t, Release) ==>
         var data := Stored(s.buf, s.rd, s.wr);
         t.cons.out == data[..MinNat(cap, |data|)] && Apply(t, Release).delivered == s.delivered + t.cons.out)
  {
    StepKeeps(s, Read(cap));
    var t := After(Apply(s, Read(cap)), ms);
    ReadGoesOn(s, cap, ms);
    if Enabled(t, Release) { ReleaseReturns(s, cap, t); }
  }

  lemma ReleaseReturns(s: Sys, cap: nat, t: Sys)
    requires Inv(s) && Inv(t) && ReadSince(s, cap, t) && Enabled(t, Release)
    ensures var data := Stored(s.buf, s.rd, s.wr);
      t.cons.out == data[..MinNat(cap, |data|)] && Apply(t, Release).delivered == s.delivered + t.cons.out
  {
    hide Stored;
    ReleaseKeeps(t);
    var data, now, k := Stored(s.buf, s.rd, s.wr), Stored(t.buf, t.rd, t.wr), |t.cons.out|;
    assert k == MinNat(cap, |data|);
    SamePrefix(s.delivered, data, now, k);
  }

  lemma SamePrefix(head: seq<byte>, a: seq<byte>, b: seq<byte>, k: nat)
    requires head + a <= head + b && k <= |a|
    ensures k <= |b| && a[..k] == b[..k]
  {
    forall i: nat | i < k ensures a[i] == b[i] {
      assert (head + a)[|head| + i] == (head + b)[|head| + i];
    }
  }

  // ---- progress of the blocking writer --------------------------------------------------------

  /** The bytes for which the writer has still to find room. */
  function Owed(p: Producer): int {
    match p
    case PIdle => 0
    case PWait(rest) => |rest|
    case PCopy(rest, n, _) => |rest| - n
  }

  /** The writer loads the read offset while the ring is not full and it still has bytes to place. */
  predicate Useful(s: Sys, m: Move)
    requires Shaped(s)
  {
    m == Sample && Enabled(s, m) && s.prod.rest != [] && Room(s) > 0
  }

  /** How often that happens in a schedule. */
  function UsefulLoads(s: Sys, ms: seq<Move>): nat
    requires Inv(s)
    decreases |ms|
  {
    if ms == [] then 0
    else
      var init, m := ms[..|ms| - 1], ms[|ms| - 1];
      UsefulLoads(s, init) + if Useful(After(s, init), m) then 1 else 0
  }

  /** A useful load finds room for at least one byte, and never for more than there is. */
  lemma StepOwes(s: Sys, m: Move)
    requires Inv(s) && Enabled(s, m) && !m.Submit? && !m.Skip?
    ensures Owed(Apply(s, m).prod) + (if Useful(s, m) then 1 else 0) <= Owed(s.prod)
  {
  }

  /** Under every interleaving a blocking write has found room for everything after at most as many useful
      loads as it has bytes: it is then idle or copying its last chunk. */
  lemma {:induction false} BlockingCompletes(s: Sys, ms: seq<Move>)
    requires Inv(s) && forall i :: 0 <= i < |ms| ==> !ms[i].Submit? && !ms[i].Skip?
    ensures 0 <= Owed(After(s, ms).prod) && Owed(After(s, ms).prod) + UsefulLoads(s, ms) <= Owed(s.prod)
    ensures UsefulLoads(s, ms) >= Owed(s.prod) ==> Owed(After(s, ms).prod) == 0
    decreases |ms|
  {
    hide Fifo, ConsInv;
    if ms != [] {
      var init, m := ms[..|ms| - 1], ms[|ms| - 1];
      BlockingCompletes(s, init);
      if Enabled(After(s, init), m) { StepOwes(After(s, init), m); }
    }
  }

  /** A completed read of at least one byte leaves room in the ring, and the room stays until the writer
      publishes: a reader that keeps draining makes the next load useful. */
  lemma DrainingMakesRoom(s: Sys, ms: seq<Move>)
    requires Inv(s) && Enabled(s, Release) && s.cons.out != [] && Publish !in ms
    ensures (StepKeeps(s, Release); Room(After(Apply(s, Release), ms)) > 0)
  {
    StepKeeps(s, Release);
    ReleaseMakesRoom(s);
    RoomStays(Apply(s, Release), ms);
  }

  lemma ReleaseMakesRoom(s: Sys)
    requires Inv(s) && Enabled(s, Release) && s.cons.out != []
    ensures Shaped(Apply(s, Release)) && Room(Apply(s, Release)) > 0
  {
    hide Stored;
    ReadSplit(s.buf, s.rd, s.wr, |s.cons.out|);
    assert Apply(s, Release).rd == Step(|s.buf|, s.rd, |s.cons.out|);
  }

  lemma {:induction false} RoomStays(s: Sys, ms: seq<Move>)
    requires Inv(s) && Room(s) > 0 && Publish !in ms
    ensures Room(After(s, ms)) > 0
    decreases |ms|
  {
    if ms != [] {
      var init, m := ms[..|ms| - 1], ms[|ms| - 1];
      RoomStays(s, init);
      var p := After(s, init);
      if Enabled(p, m) { RoomStep(p, m); }
    }
  }

  lemma RoomStep(s: Sys, m: Move)
    requires Inv(s) && Enabled(s, m) && m != Publish && Room(s) > 0
    ensures Shaped(Apply(s, m)) && Room(Apply(s, m)) > 0
  {
    StepKeeps(s, m);
    if m == Release && s.cons.out != [] { ReleaseMakesRoom(s); }
  }
}
