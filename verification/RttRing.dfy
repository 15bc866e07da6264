/** The RTT ring buffer: one byte array, a write and a read offset, one slot always unused. */
module RttRing {

  newtype byte = b: int | 0 <= b < 0x100

  const U32: int := 0x1_0000_0000

  /** Unsigned 32-bit arithmetic of the target. */
  function Sub32(a: int, b: int): (r: nat)
    ensures r < U32 && (b <= a < b + U32 ==> r == a - b)
  {
    (a - b) % U32
  }

  function Add32(a: int, b: int): (r: nat)
    ensures r < U32 && (0 <= a + b < U32 ==> r == a + b)
  {
    (a + b) % U32
  }

  // Channel modes.
  const NO_BLOCK_SKIP: nat := 0
  const NO_BLOCK_TRIM: nat := 1
  const BLOCK_IF_FIFO_FULL: nat := 2

  function MinNat(a: nat, b: nat): nat { if a < b then a else b }

  // ---- the ring as a value --------------------------------------------------------------------

  /** The bytes stored between the read and the write offset, oldest first. */
  function Stored(buf: seq<byte>, rd: nat, wr: nat): (s: seq<byte>)
    requires rd < |buf| && wr < |buf|
    ensures |s| == if rd <= wr then wr - rd else |buf| - rd + wr
  {
    if rd <= wr then buf[rd..wr] else buf[rd..] + buf[..wr]
  }

  /** The position `n` bytes after `p`, for `n` at most one round. */
  function Step(size: nat, p: nat, n: nat): (r: nat)
    requires p < size && n <= size
    ensures r < size
  {
    if p + n < size then p + n else p + n - size
  }

  /** Byte `i` of the stored data lies `i` steps after the read offset. */
  lemma StoredAt(buf: seq<byte>, rd: nat, wr: nat, i: nat)
    requires rd < |buf| && wr < |buf| && i < |Stored(buf, rd, wr)|
    ensures Stored(buf, rd, wr)[i] == buf[Step(|buf|, rd, i)]
  {
  }

  /** Two rings with the same offsets hold the same data when they agree on the used positions. */
  lemma StoredExt(a: seq<byte>, rd: nat, wr: nat, s: seq<byte>)
    requires rd < |a| && wr < |a| && |s| == |Stored(a, rd, wr)|
    requires forall i: nat :: i < |s| ==> a[Step(|a|, rd, i)] == s[i]
    ensures Stored(a, rd, wr) == s
  {
    forall i: nat | i < |s| ensures Stored(a, rd, wr)[i] == s[i] { StoredAt(a, rd, wr, i); }
  }

  class Ring {
    const buf: array<byte>
    var wr: nat
    var rd: nat

    ghost predicate Valid()
      reads this
    {
      1 <= buf.Length < U32 && wr < buf.Length && rd < buf.Length
    }

    ghost function Contents(): (s: seq<byte>)
      reads this, buf
      requires Valid()
    {
      Stored(buf[..], rd, wr)
    }

    /** Free bytes: one position stays unused to tell a full ring from an empty one. */
    ghost function Free(): (n: int)
      reads this, buf
      requires Valid()
      ensures 0 <= n < buf.Length && n + |Contents()| == buf.Length - 1
    {
      buf.Length - 1 - |Contents()|
    }

    constructor (size: nat)
      requires 1 <= size < U32
      ensures Valid() && fresh(buf) && buf.Length == size && Contents() == []
    {
      buf := new byte[size];
      wr, rd := 0, 0;
    }

    /** Copies a run of bytes into the buffer, one byte at a time. */
    method CopyIn(at: nat, data: seq<byte>)
      requires at + |data| <= buf.Length
      modifies buf
      ensures buf[at..at + |data|] == data
      ensures forall p :: 0 <= p < buf.Length && !(at <= p < at + |data|) ==> buf[p] == old(buf[p])
    {
      var j := 0;
      while j < |data|
        invariant 0 <= j <= |data|
        invariant forall q :: 0 <= q < j ==> buf[at + q] == data[q]
        invariant forall p :: 0 <= p < buf.Length && !(at <= p < at + j) ==> buf[p] == old(buf[p])
      {
        buf[at + j] := data[j];
        j := j + 1;
      }
    }

    method GetAvailWriteSpace() returns (r: nat)
      requires Valid()
      ensures r == Free()
    {
      if rd <= wr {
        r := buf.Length - 1 - wr + rd;
      } else {
        r := rd - wr - 1;
      }
    }

    /** _WriteNoCheck: the caller made sure that the data fits. */
    method WriteNoCheck(data: seq<byte>)
      requires Valid() && |data| <= Free()
      modifies buf, `wr
      ensures Valid() && Contents() == old(Contents()) + data
    {
      var size := buf.Length;
      var rem := size - wr;
      ghost var before, at := buf[..], wr;
      if rem > |data| {
        CopyIn(wr, data);
        wr := wr + |data|;
      } else {
        CopyIn(wr, data[..rem]);
        CopyIn(0, data[rem..]);
        wr := |data| - rem;
      }
      Appended(before, buf[..], rd, at, wr, data);
    }

    /** SEGGER_RTT_WriteSkipNoLock: stores all of the data or nothing. */
    method WriteSkip(data: seq<byte>) returns (ok: bool)
      requires Valid()
      modifies buf, `wr
      ensures Valid() && ok == (|data| <= old(Free()))
      ensures Contents() == if ok then old(Contents()) + data else old(Contents())
      ensures !ok ==> wr == old(wr) && buf[..] == old(buf[..])
    {
      ghost var before, at := buf[..], wr;
      ok := false;
      if rd <= wr {
        var avail := buf.Length - wr - 1;
        if avail >= |data| {
          CopyIn(wr, data);
          wr := wr + |data|;
          ok := true;
        } else {
          avail := avail + rd;
          if avail >= |data| {
            var rem := buf.Length - wr;
            CopyIn(wr, data[..rem]);
            if |data| > rem {
              CopyIn(0, data[rem..]);
            }
            wr := |data| - rem;
            ok := true;
          }
        }
      } else {
        var avail := rd - wr - 1;
        if avail >= |data| {
          CopyIn(wr, data);
          wr := wr + |data|;
          ok := true;
        }
      }
      if ok { Appended(before, buf[..], rd, at, wr, data); }
    }

    /** SEGGER_RTT_ReadUpBufferNoLock and SEGGER_RTT_ReadNoLock: reads until the wrap-around, then the
        rest. The second count is an unsigned difference that wraps when the first part exhausted the
        reader's buffer. */
    method Read(cap: nat) returns (out: seq<byte>)
      requires Valid() && cap < U32
      modifies `rd
      ensures Valid()
      ensures out == old(Contents())[..MinNat(cap, |old(Contents())|)]
      ensures Contents() == old(Contents())[MinNat(cap, |old(Contents())|)..]
    {
      hide Sub32, Stored;
      ghost var at := rd;
      out := [];
      var off, left := rd, cap;
      if off > wr {
        var n := MinNat(buf.Length - off, left);
        out := buf[off..off + n];
        left := left - n;
        off := off + n;
        if off == buf.Length {
          off := 0;
        }
      }
      var n := MinNat(Sub32(wr, off), left);
      if n > 0 {
        out := out + buf[off..off + n];
        left := left - n;
        off := off + n;
      }
      ghost var all := buf[..];
      ReadSplit(all, at, wr, cap - left);
      assert out == if at + |out| <= |all| then all[at..at + |out|] else all[at..] + all[..at + |out| - |all|];
      if |out| > 0 {
        rd := off;
      }
    }

    /** Copies a chunk that ends before the wrap-around and publishes the new write offset. */
    method WriteChunk(data: seq<byte>)
      requires Valid() && |data| <= Free() && wr + |data| <= buf.Length
      modifies buf, `wr
      ensures Valid() && Contents() == old(Contents()) + data
    {
      ghost var before, at := buf[..], wr;
      CopyIn(wr, data);
      wr := if wr + |data| == buf.Length then 0 else wr + |data|;
      Appended(before, buf[..], rd, at, wr, data);
    }

    /** _WriteBlocking against a host that takes up to `host[j]` bytes before the read offset is loaded in
        round `j` and nothing afterwards. `blocked` says that the loop then goes round for ever; that is the
        case exactly when the data exceeds the free space together with what the host took. */
    method WriteBlocking(data: seq<byte>, host: seq<nat>) returns (written: nat, taken: seq<byte>, blocked: bool)
      requires Valid() && forall j :: 0 <= j < |host| ==> host[j] < U32
      modifies buf, `wr, `rd
      ensures Valid() && written <= |data| && taken + Contents() == old(Contents()) + data[..written]
      ensures blocked <==> written < |data|
      ensures blocked <==> |data| > old(Free()) + |taken|
      ensures blocked ==> Free() == 0
      ensures host == [] ==> taken == [] && rd == old(rd)
      ensures host == [] && |data| <= old(Free()) ==> Contents() == old(Contents()) + data
    {
      hide Stored;
      var rest, j := data, 0;
      written, taken, blocked := 0, [], false;
      ghost var before := Contents();
      assert data[..0] == [] && before + [] == before && [] + before == before;
      while true
        invariant Valid() && written <= |data| && rest == data[written..] && 0 <= j <= |host|
        invariant taken + Contents() == before + data[..written]
        invariant host == [] ==> taken == [] && rd == old(rd)
        decreases |rest| + |host| - j
      {
        if j < |host| {
          ghost var was := Contents();
          var part := HostTakes(host[j]);
          Moved(taken, was, part, Contents());
          taken := taken + part;
          j := j + 1;
        }
        ghost var was := Contents();
        var n := WriteRound(rest);
        Grew(taken, was, before, data, written, n);
        written := written + n;
        rest := rest[n..];
        if rest == [] {
          break;
        }
        if n == 0 && j == |host| {
          blocked := true;
          break;
        }
      }
      Balance(taken, Contents(), before, data, written);
    }

    /** The host takes up to `cap` bytes. */
    method HostTakes(cap: nat) returns (part: seq<byte>)
      requires Valid() && cap < U32
      modifies `rd
      ensures Valid() && part + Contents() == old(Contents())
    {
      part := Read(cap);
    }

    /** One round: sizes the chunk up to the wrap-around from the offsets and writes it. */
    method WriteRound(rest: seq<byte>) returns (n: nat)
      requires Valid()
      modifies buf, `wr
      ensures Valid() && n <= |rest| && Contents() == old(Contents()) + rest[..n]
      ensures n == 0 <==> rest == [] || old(Free()) == 0
    {
      n := if rd > wr then rd - wr - 1 else buf.Length - (wr - rd + 1);
      n := MinNat(MinNat(n, buf.Length - wr), |rest|);
      WriteChunk(rest[..n]);
    }

    /** SEGGER_RTT_WriteNoLock: skip, trim or block, as the channel's flags say. */
    method WriteNoLock(flags: nat, data: seq<byte>, host: seq<nat>)
      returns (status: nat, taken: seq<byte>, blocked: bool)
      requires Valid() && forall j :: 0 <= j < |host| ==> host[j] < U32
      modifies buf, `wr, `rd
      ensures Valid() && status <= |data| && taken + Contents() == old(Contents()) + data[..status]
      ensures blocked <==> flags == BLOCK_IF_FIFO_FULL && |data| > old(Free()) + |taken|
      ensures flags != BLOCK_IF_FIFO_FULL ==> taken == []
      ensures !blocked ==> status == match flags
        case 0 => if |data| <= old(Free()) then |data| else 0
        case 1 => MinNat(|data|, old(Free()))
        case 2 => |data|
        case _ => 0
    {
      taken, blocked := [], false;
      if flags == NO_BLOCK_SKIP {
        var avail := GetAvailWriteSpace();
        if avail < |data| {
          status := 0;
        } else {
          status := |data|;
          WriteNoCheck(data);
        }
      } else if flags == NO_BLOCK_TRIM {
        var avail := GetAvailWriteSpace();
        status := if avail < |data| then avail else |data|;
        WriteNoCheck(data[..status]);
      } else if flags == BLOCK_IF_FIFO_FULL {
        status, taken, blocked := WriteBlocking(data, host);
      } else {
        status := 0;
      }
      assert status == |data| ==> data[..status] == data;
      assert [] + Contents() == Contents();
    }

    /** SEGGER_RTT_GetBytesInBuffer: the wrapped case subtracts the wrong way round, so the count is right
        exactly for data that does not wrap, or when the offsets lie half the number range apart. */
    method GetBytesInBuffer() returns (r: nat)
      requires Valid()
      ensures r == |Contents()| <==> rd <= wr || rd - wr == U32 / 2
    {
      if rd <= wr {
        r := wr - rd;
      } else {
        r := Sub32(buf.Length, Sub32(wr, rd));
      }
    }

    /** SEGGER_RTT_WriteWithOverwriteNoLock: makes room by moving the read offset, then writes all of the
        data in as many rounds as it takes. A one-byte ring never ends a write of two bytes. */
    method WriteWithOverwrite(data: seq<byte>)
      requires Valid() && |data| < U32
      requires buf.Length >= 2 || |data| <= 1
      modifies buf, `wr, `rd
      ensures Valid()
      ensures (buf[..], rd, wr) == Overwrite(old(buf[..]), old(rd), old(wr), data)
      ensures 2 <= buf.Length <= U32 / 2 && |data| < 2 * buf.Length - 1 - old(wr) ==>
        Contents() == Newest(old(Contents()) + data, buf.Length - 1)
    {
      hide Add32, Sub32, Rounds, Wrapped, Stored;
      var size := buf.Length;
      var avail := if wr == rd then size - 1 else if wr < rd then rd - wr - 1 else
        Add32(Sub32(rd, wr + 1), size);
      if rd < wr { WrapsBack(rd, wr, size); }
      assert avail == Free();
      if |data| > avail {
        rd := WrapOff(Add32(rd, |data| - avail), size);
      }
      WriteRounds(data);
      if 2 <= size <= U32 / 2 && |data| < 2 * size - 1 - old(wr) {
        OverwriteKeepsNewest(old(buf[..]), old(rd), old(wr), data);
      }
    }

    /** The copying loop of the overwriting write. */
    method WriteRounds(data: seq<byte>)
      requires Valid() && (buf.Length >= 2 || |data| <= 1)
      modifies buf, `wr
      ensures Valid()
      ensures (buf[..], wr) == Rounds(old(buf[..]), old(wr), buf.Length - old(wr), data)
    {
      hide Splice;
      var rest := data;
      var avail := buf.Length - wr;
      while true
        invariant Valid() && 0 < avail <= buf.Length - wr
        invariant buf.Length >= 2 || |rest| <= 1
        invariant Rounds(buf[..], wr, avail, rest) == Rounds(old(buf[..]), old(wr), buf.Length - old(wr), data)
        decreases |rest|
      {
        if avail > |rest| {
          ghost var before := buf[..];
          CopyIn(wr, rest);
          SpliceIs(before, buf[..], wr, rest);
          wr := wr + |rest|;
          break;
        }
        ghost var before := buf[..];
        CopyIn(wr, rest[..avail]);
        SpliceIs(before, buf[..], wr, rest[..avail]);
        wr := 0;
        rest := rest[avail..];
        if rest == [] {
          break;
        }
        avail := buf.Length - 1;
      }
    }
  }

  function Wrapped(off: nat, size: nat): (r: nat)
    requires 0 < size
    ensures r < size
  {
    off % size
  }

  /** Takes off the buffer size until the offset is inside the buffer. */
  method WrapOff(start: nat, size: nat) returns (r: nat)
    requires 0 < size
    ensures r == Wrapped(start, size)
  {
    r := start;
    while r >= size
      invariant r % size == start % size
    {
      ModStep(r, size);
      r := r - size;
    }
    ModSmall(r, size);
  }

  /** An unsigned difference that wrapped comes back when the buffer size is added. */
  lemma WrapsBack(rd: nat, wr: nat, size: nat)
    requires rd < wr < size < U32
    ensures Add32(Sub32(rd, wr + 1), size) == rd - wr - 1 + size
  {
  }

  lemma Balance(taken: seq<byte>, now: seq<byte>, before: seq<byte>, data: seq<byte>, written: nat)
    requires written <= |data| && taken + now == before + data[..written]
    ensures |taken| + |now| == |before| + written
    ensures taken == [] && written == |data| ==> now == before + data
  {
    assert |taken + now| == |before + data[..written]|;
    assert [] + now == now && data[..|data|] == data;
  }

  lemma Grew(taken: seq<byte>, was: seq<byte>, before: seq<byte>, data: seq<byte>, written: nat, n: nat)
    requires written + n <= |data| && taken + was == before + data[..written]
    ensures taken + (was + data[written..][..n]) == before + data[..written + n]
  {
    assert data[..written + n] == data[..written] + data[written..][..n];
    assert taken + (was + data[written..][..n]) == taken + was + data[written..][..n];
  }

  /** What a read takes from the ring it adds to what was taken. */
  lemma Moved(taken: seq<byte>, was: seq<byte>, part: seq<byte>, now: seq<byte>)
    requires part + now == was
    ensures taken + part + now == taken + was
  {
  }

  /** Reading `n` stored bytes returns the first `n` and leaves the others. */
  lemma ReadSplit(buf: seq<byte>, rd: nat, wr: nat, n: nat)
    requires rd < |buf| && wr < |buf| && n <= |Stored(buf, rd, wr)|
    ensures Stored(buf, rd, wr)[..n] ==
      if rd + n <= |buf| then buf[rd..rd + n] else buf[rd..] + buf[..rd + n - |buf|]
    ensures Stored(buf, Step(|buf|, rd, n), wr) == Stored(buf, rd, wr)[n..]
  {
    if rd > wr {
      if rd + n < |buf| {
        assert Stored(buf, rd, wr)[n..] == buf[rd + n..] + buf[..wr];
      } else {
        assert Stored(buf, rd, wr)[n..] == buf[rd + n - |buf|..wr];
      }
    }
  }

  lemma ModStep(a: int, m: int)
    requires 0 < m
    ensures (a - m) % m == a % m
  {
    DivIs(a, m, a / m, a % m);
    DivIs(a - m, m, a / m - 1, a % m);
  }

  lemma ModSmall(a: int, m: int)
    requires 0 <= a < m
    ensures a % m == a
  {
  }

  lemma MulAtLeast(d: int, m: int)
    requires d >= 1 && m > 0
    ensures d * m >= m
  {
  }

  lemma DivIs(a: int, m: int, q: int, r: int)
    requires 0 < m && a == q * m + r && 0 <= r < m
    ensures a % m == r
  {
    var d := a / m - q;
    assert a == (a / m) * m + a % m;
    assert d * m == r - a % m;
    if d >= 1 { MulAtLeast(d, m); } else if d <= -1 { MulAtLeast(-d, m); }
  }

  /** Copying data behind the write offset appends it, provided it ends before the read offset. */
  lemma Appended(oldBuf: seq<byte>, buf: seq<byte>, rd: nat, at: nat, wr: nat, data: seq<byte>)
    requires rd < |buf| && at < |buf| == |oldBuf| && |data| + |Stored(oldBuf, rd, at)| < |buf|
    requires wr == Step(|buf|, at, |data|)
    requires forall j: nat :: j < |data| ==> buf[Step(|buf|, at, j)] == data[j]
    requires forall p: nat :: p < |buf| && !Written(|buf|, at, |data|, p) ==> buf[p] == oldBuf[p]
    ensures Stored(buf, rd, wr) == Stored(oldBuf, rd, at) + data
  {
    var was := Stored(oldBuf, rd, at);
    forall i: nat | i < |was + data| ensures buf[Step(|buf|, rd, i)] == (was + data)[i] {
      if i < |was| {
        StoredAt(oldBuf, rd, at, i);
      } else {
        assert Step(|buf|, rd, i) == Step(|buf|, at, i - |was|);
      }
    }
    StoredExt(buf, rd, wr, was + data);
  }

  /** Position `p` is among the `n` positions from `at` on. */
  ghost predicate Written(size: nat, at: nat, n: nat, p: nat) {
    at <= p < at + n || p < at + n - size
  }

  // ---- overwriting ----------------------------------------------------------------------------

  /** The buffer with `data` copied to position `at`. */
  function Splice(buf: seq<byte>, at: nat, data: seq<byte>): (r: seq<byte>)
    requires at + |data| <= |buf|
    ensures |r| == |buf|
  {
    buf[..at] + data + buf[at + |data|..]
  }

  lemma SpliceIs(before: seq<byte>, after: seq<byte>, at: nat, data: seq<byte>)
    requires at + |data| <= |before| == |after| && after[at..at + |data|] == data
    requires forall p: nat :: p < |after| && !(at <= p < at + |data|) ==> after[p] == before[p]
    ensures after == Splice(before, at, data)
  {
    var r := Splice(before, at, data);
    forall p: nat | p < |r| ensures after[p] == r[p] {
      if at <= p < at + |data| { assert after[p] == after[at..at + |data|][p - at]; }
    }
  }

  /** The rounds of an overwriting write: `avail` bytes to the wrap-around in this one, one byte less than
      the buffer in each later one. Returns the buffer and the write offset. */
  function Rounds(buf: seq<byte>, wr: nat, avail: nat, data: seq<byte>): (r: (seq<byte>, nat))
    requires 0 < avail && wr + avail <= |buf| && (|buf| >= 2 || |data| <= 1)
    ensures |r.0| == |buf| && r.1 < |buf|
    decreases |data|
  {
    if avail > |data| then (Splice(buf, wr, data), wr + |data|)
    else
      var b := Splice(buf, wr, data[..avail]);
      if |data| == avail then (b, 0) else Rounds(b, 0, |buf| - 1, data[avail..])
  }

  /** The ring (buffer, read offset, write offset) after an overwriting write. */
  function Overwrite(buf: seq<byte>, rd: nat, wr: nat, data: seq<byte>): (r: (seq<byte>, nat, nat))
    requires rd < |buf| && wr < |buf| && |buf| < U32 && (|buf| >= 2 || |data| <= 1)
    ensures |r.0| == |buf| && r.1 < |buf| && r.2 < |buf|
  {
    var avail := |buf| - 1 - |Stored(buf, rd, wr)|;
    var w := Rounds(buf, wr, |buf| - wr, data);
    (w.0, if |data| > avail then Wrapped(Add32(rd, |data| - avail), |buf|) else rd, w.1)
  }

  /** The longest suffix of `s` that has at most `n` bytes. */
  function Newest(s: seq<byte>, n: nat): seq<byte> {
    if |s| <= n then s else s[|s| - n..]
  }

  /** The write keeps the newest bytes of the old contents followed by the data. */
  ghost predicate KeepsNewest(buf: seq<byte>, rd: nat, wr: nat, data: seq<byte>)
    requires rd < |buf| && wr < |buf| && 2 <= |buf| < U32
  {
    var r := Overwrite(buf, rd, wr, data);
    Stored(r.0, r.1, r.2) == Newest(Stored(buf, rd, wr) + data, |buf| - 1)
  }

  /** Up to one round and a bit, each position holds the last byte written to it. */
  lemma RoundsAt(buf: seq<byte>, wr: nat, data: seq<byte>, p: nat)
    requires wr < |buf| && 2 <= |buf| && p < |buf| && |data| < 2 * |buf| - 1 - wr
    ensures var r := Rounds(buf, wr, |buf| - wr, data);
      r.1 == (if wr + |data| < |buf| then wr + |data| else wr + |data| - |buf|) &&
      r.0[p] == if p < wr + |data| - |buf| then data[p + |buf| - wr]
                else if wr <= p < wr + |data| then data[p - wr] else buf[p]
  {
    var size := |buf|;
    if |data| > size - wr {
      var b := Splice(buf, wr, data[..size - wr]);
      assert Rounds(b, 0, size - 1, data[size - wr..]) ==
        (Splice(b, 0, data[size - wr..]), |data| - (size - wr));
    }
  }

  /** Where the read offset goes when the data does not fit: one behind the new write offset. */
  lemma OverwriteOffsets(buf: seq<byte>, rd: nat, wr: nat, data: seq<byte>)
    requires rd < |buf| && wr < |buf| && 2 <= |buf| <= U32 / 2 && |data| < 2 * |buf| - 1 - wr
    requires |data| + |Stored(buf, rd, wr)| > |buf| - 1
    ensures var r := Overwrite(buf, rd, wr, data);
      r.1 == Step(|buf|, r.2, 1) && |Stored(r.0, r.1, r.2)| == |buf| - 1 &&
      r.2 == if wr + |data| < |buf| then wr + |data| else wr + |data| - |buf|
  {
    hide Rounds;
    RoundsAt(buf, wr, data, 0);
    var size := |buf|;
    var to := rd + |data| - (size - 1 - |Stored(buf, rd, wr)|);
    assert to == if rd <= wr then wr + |data| + 1 - size else wr + |data| + 1;
    assert Add32(rd, to - rd) == to;
    if to < size { ModSmall(to, size); } else { ModStep(to, size); ModSmall(to - size, size); }
  }

  /** A write shorter than the rest of the buffer and one more round keeps the newest bytes. */
  lemma OverwriteKeepsNewest(buf: seq<byte>, rd: nat, wr: nat, data: seq<byte>)
    requires rd < |buf| && wr < |buf| && 2 <= |buf| <= U32 / 2 && |data| < 2 * |buf| - 1 - wr
    ensures KeepsNewest(buf, rd, wr, data)
  {
    hide Rounds;
    var r := Overwrite(buf, rd, wr, data);
    var was := Stored(buf, rd, wr);
    if |was| + |data| <= |buf| - 1 {
      forall p: nat | p < |buf| ensures Written(|buf|, wr, |data|, p) || r.0[p] == buf[p] {
        RoundsAt(buf, wr, data, p);
      }
      forall j: nat | j < |data| ensures r.0[Step(|buf|, wr, j)] == data[j] {
        RoundsAt(buf, wr, data, Step(|buf|, wr, j));
      }
      RoundsAt(buf, wr, data, 0);
      Appended(buf, r.0, rd, wr, r.2, data);
    } else {
      OverwriteOffsets(buf, rd, wr, data);
      var want := Newest(was + data, |buf| - 1);
      forall i: nat | i < |want| ensures r.0[Step(|buf|, r.1, i)] == want[i] {
        OverwrittenByte(buf, rd, wr, data, i);
      }
      StoredExt(r.0, r.1, r.2, want);
    }
  }

  lemma OverwrittenByte(buf: seq<byte>, rd: nat, wr: nat, data: seq<byte>, i: nat)
    requires rd < |buf| && wr < |buf| && 2 <= |buf| <= U32 / 2 && |data| < 2 * |buf| - 1 - wr
    requires |data| + |Stored(buf, rd, wr)| > |buf| - 1 && i < |buf| - 1
    ensures var r := Overwrite(buf, rd, wr, data);
      r.0[Step(|buf|, r.1, i)] == Newest(Stored(buf, rd, wr) + data, |buf| - 1)[i]
  {
    hide Rounds, Overwrite, Stored, Step, Newest;
    var size, was := |buf|, Stored(buf, rd, wr);
    OverwriteOffsets(buf, rd, wr, data);
    var r := Overwrite(buf, rd, wr, data);
    var p, q := Step(size, r.1, i), |was| + |data| - (size - 1) + i;
    OverwrittenAt(buf, rd, wr, data, p);
    OverwrittenPlace(size, rd, wr, |data|, |was|, i);
    NewestAt(was + data, size - 1, i);
    if q < |was| { StoredAt(buf, rd, wr, q); }
  }

  lemma NewestAt(s: seq<byte>, n: nat, i: nat)
    requires n <= |s| && i < n
    ensures |Newest(s, n)| == n && Newest(s, n)[i] == s[|s| - n + i]
  {
  }

  /** Which byte the `i`-th position after the new read offset holds. */
  lemma OverwrittenPlace(size: nat, rd: nat, wr: nat, n: nat, used: nat, i: nat)
    requires rd < size && wr < size && 2 <= size && n < 2 * size - 1 - wr && n + used > size - 1 && i < size - 1
    requires used == if rd <= wr then wr - rd else size - rd + wr
    ensures var w := if wr + n < size then wr + n else wr + n - size;
      var p, q := Step(size, Step(size, w, 1), i), used + n - (size - 1) + i;
      if q < used then p == Step(size, rd, q) && p >= wr + n - size && !(wr <= p < wr + n)
      else if p < wr + n - size then p + size - wr == q - used
      else wr <= p < wr + n && p - wr == q - used
  {
  }

  lemma OverwrittenAt(buf: seq<byte>, rd: nat, wr: nat, data: seq<byte>, p: nat)
    requires rd < |buf| && wr < |buf| && 2 <= |buf| < U32 && p < |buf| && |data| < 2 * |buf| - 1 - wr
    ensures Overwrite(buf, rd, wr, data).0[p] ==
      if p < wr + |data| - |buf| then data[p + |buf| - wr]
      else if wr <= p < wr + |data| then data[p - wr] else buf[p]
  {
    hide Rounds, Stored, Wrapped, Add32;
    RoundsAt(buf, wr, data, p);
  }

  /** A longer write never touches the last position again after its first round. */
  lemma {:induction false} LastByteStays(buf: seq<byte>, data: seq<byte>)
    requires 2 <= |buf|
    ensures var r := Rounds(buf, 0, |buf| - 1, data);
      r.0[|buf| - 1] == buf[|buf| - 1] && r.1 < |buf| - 1
    decreases |data|
  {
    var avail := |buf| - 1;
    if avail < |data| {
      LastByteStays(Splice(buf, 0, data[..avail]), data[avail..]);
    }
  }

  /** Exactly how long an overwriting write may be: shorter than the rest of the buffer and a round.
      A longer one skips the last position of the buffer in its later rounds and leaves an old byte there. */
  lemma OverwriteExact(buf: seq<byte>, rd: nat, wr: nat, n: nat)
    requires rd < |buf| && wr < |buf| && 2 <= |buf| <= U32 / 2
    ensures (forall data: seq<byte> :: |data| == n ==> KeepsNewest(buf, rd, wr, data)) <==>
      n < 2 * |buf| - 1 - wr
  {
    if n < 2 * |buf| - 1 - wr {
      forall data: seq<byte> | |data| == n ensures KeepsNewest(buf, rd, wr, data) {
        OverwriteKeepsNewest(buf, rd, wr, data);
      }
    } else {
      var data := Marked(n, |buf| - 1 - wr);
      OverwriteLoses(buf, rd, wr, data);
      assert |data| == n && !KeepsNewest(buf, rd, wr, data);
    }
  }

  /** Zeros with a single one at position `p`. */
  function Marked(n: nat, p: nat): seq<byte> {
    seq(n, i => if i == p then 1 else 0)
  }

  lemma OverwriteLoses(buf: seq<byte>, rd: nat, wr: nat, data: seq<byte>)
    requires rd < |buf| && wr < |buf| && 2 <= |buf| <= U32 / 2 && |data| >= 2 * |buf| - 1 - wr
    requires data == Marked(|data|, |buf| - 1 - wr)
    ensures !KeepsNewest(buf, rd, wr, data)
  {
    var size, p := |buf|, |buf| - 1 - wr;
    LongWriteEnds(buf, rd, wr, data);
    var r := Overwrite(buf, rd, wr, data);
    hide Rounds, Wrapped, Add32, Overwrite;
    if KeepsNewest(buf, rd, wr, data) {
      hide KeepsNewest;
      var i := size - 1 - r.1;
      StoredAt(r.0, r.1, r.2, i);
      NewestAt(Stored(buf, rd, wr) + data, size - 1, i);
      assert false;
    }
  }

  lemma LongWriteEnds(buf: seq<byte>, rd: nat, wr: nat, data: seq<byte>)
    requires rd < |buf| && wr < |buf| && 2 <= |buf| < U32 && |data| >= 2 * |buf| - 1 - wr
    ensures var r := Overwrite(buf, rd, wr, data);
      r.0[|buf| - 1] == data[|buf| - 1 - wr] && r.2 < |buf| - 1
  {
    var size := |buf|;
    LastByteStays(Splice(buf, wr, data[..size - wr]), data[size - wr..]);
  }
}
