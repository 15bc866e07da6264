/** The SystemView packet stream: number encoding, packet layout, and the recorder that drops packets and
    reports the drops. */
module Sysview {
  import opened KernelTypes
  import opened RttRing

  // ---- numbers --------------------------------------------------------------------------------

  /** Seven bits a byte, low bits first, the top bit set on all bytes but the last. */
  function Leb(v: nat): (s: seq<byte>)
    ensures |s| >= 1
  {
    if v > 0x7F then [(v % 0x80 + 0x80) as byte] + Leb(v / 0x80) else [v as byte]
  }

  /** The number at the front and what follows it. */
  function DecodeLeb(s: seq<byte>): (r: Option<(nat, seq<byte>)>)
    ensures r.Some? ==> |r.value.1| < |s|
  {
    if s == [] then None
    else if s[0] < 0x80 then Some((s[0] as nat, s[1..]))
    else
      match DecodeLeb(s[1..])
      case None => None
      case Some(r) => Some((s[0] as nat - 0x80 + 0x80 * r.0, r.1))
  }

  lemma {:induction false} LebRoundTrip(v: nat, rest: seq<byte>)
    ensures DecodeLeb(Leb(v) + rest) == Some((v, rest))
  {
    if v > 0x7F {
      LebRoundTrip(v / 0x80, rest);
      assert (Leb(v) + rest)[1..] == Leb(v / 0x80) + rest;
    } else {
      assert (Leb(v) + rest)[1..] == rest;
    }
  }

  function Pow128(n: nat): nat { if n == 0 then 1 else 0x80 * Pow128(n - 1) }

  /** A number below 128 to the n takes at most n bytes; n = 5 covers 32 bits. */
  lemma {:induction false} LebLength(v: nat, n: nat)
    requires n >= 1 && v < Pow128(n)
    ensures |Leb(v)| <= n
  {
    if v > 0x7F { LebLength(v / 0x80, n - 1); }
  }

  lemma LebFits(v: nat)
    requires v < U32
    ensures |Leb(v)| <= 5
  {
    assert Pow128(5) == 0x80 * (0x80 * (0x80 * (0x80 * (0x80 * Pow128(0)))));
    LebLength(v, 5);
  }

  /** No other byte string of any length that decodes to the same number is shorter. */
  lemma {:induction false} LebShortest(s: seq<byte>, rest: seq<byte>)
    requires DecodeLeb(s + rest).Some? && DecodeLeb(s + rest).value.1 == rest
    ensures |Leb(DecodeLeb(s + rest).value.0)| <= |s|
    decreases |s|
  {
    var t := s + rest;
    if t[0] < 0x80 {
      assert |t[1..]| == |rest|;
    } else if s == [] {
      assert false;
    } else {
      assert t[1..] == s[1..] + rest;
      LebShortest(s[1..], rest);
    }
  }

  /** Two-byte form of the header numbers. */
  lemma LebTwo(v: nat)
    requires v < 0x4000
    ensures Leb(v) == if v > 0x7F then [(v % 0x80 + 0x80) as byte, (v / 0x80) as byte] else [v as byte]
  {
  }

  lemma LebStep(v: nat)
    requires v > 0x7F
    ensures Leb(v) == [(v % 0x80 + 0x80) as byte] + Leb(v / 0x80)
  {
  }

  /** ENCODE_U32: writes the number at a position and returns the position after it. */
  method EncodeU32(dest: array<byte>, at: nat, v: nat) returns (end: nat)
    requires v < U32 && at + |Leb(v)| <= dest.Length
    modifies dest
    ensures end == at + |Leb(v)| && dest[at..end] == Leb(v)
    ensures forall p :: 0 <= p < dest.Length && !(at <= p < end) ==> dest[p] == old(dest[p])
  {
    hide Leb;
    var d := v;
    end := at;
    while d > 0x7F
      invariant at <= end && d >= 0 && end + |Leb(d)| == at + |Leb(v)|
      invariant dest[at..end] + Leb(d) == Leb(v)
      invariant forall p :: 0 <= p < dest.Length && !(at <= p < end) ==> dest[p] == old(dest[p])
    {
      ghost var done := dest[at..end];
      LebStep(d);
      dest[end] := (d % 0x80 + 0x80) as byte;
      assert dest[at..end + 1] == done + [dest[end]];
      end := end + 1;
      d := d / 0x80;
    }
    ghost var done := dest[at..end];
    LebTwo(d);
    dest[end] := d as byte;
    assert dest[at..end + 1] == done + Leb(d);
    end := end + 1;
  }

  // ---- packets --------------------------------------------------------------------------------

  datatype Packet =
    | Event(id: nat, payload: seq<byte>, delta: nat)
    | Overflow(drops: nat, delta: nat)

  /** The payload of a known event, as the functions that record it write it: some numbers, then perhaps a text.
      Its length is not in the stream. */
  function Numbers(id: nat): nat {
    match id
    case 2 => 1 case 4 => 1 case 6 => 1 case 7 => 2 case 8 => 1 case 9 => 2 case 12 => 1 case 13 => 2
    case 15 => 1 case 16 => 1 case 19 => 1 case 21 => 4 case 22 => 2
    case _ => 0
  }

  predicate HasText(id: nat) { id == 9 || id == 14 || id == 22 }

  /** _EncodeStr: a count of one byte, or of two behind a mark, and the characters. */
  function Text(cs: seq<byte>): seq<byte>
    requires |cs| < 0x1_0000
  {
    (if |cs| < 255 then [|cs| as byte] else [255, (|cs| % 256) as byte, (|cs| / 256) as byte]) + cs
  }

  /** What follows `n` numbers, a text, and the payload of a known event. */
  function SkipNumbers(s: seq<byte>, n: nat): (r: Option<seq<byte>>)
    ensures r.Some? ==> |r.value| <= |s|
    decreases n
  {
    if n == 0 then Some(s)
    else match DecodeLeb(s) case None => None case Some(v) => SkipNumbers(v.1, n - 1)
  }

  function SkipText(s: seq<byte>): (r: Option<seq<byte>>)
    ensures r.Some? ==> |r.value| <= |s|
  {
    if s == [] then None
    else
      var (head, len) := if s[0] < 255 then (1, s[0] as nat)
                         else if |s| < 3 then (3, 0) else (3, s[1] as nat + 256 * s[2] as nat);
      if |s| < head + len then None else Some(s[head + len..])
  }

  function SkipPayload(id: nat, s: seq<byte>): (r: Option<seq<byte>>)
    ensures r.Some? ==> |r.value| <= |s|
  {
    match SkipNumbers(s, Numbers(id))
    case None => None
    case Some(t) => if HasText(id) then SkipText(t) else Some(t)
  }

  /** What the stream can carry: known events with their kind of payload, others with any. */
  predicate Carries(id: nat, payload: seq<byte>) {
    if id < 24 then id != 1 && SkipPayload(id, payload) == Some([]) else id < 0x4000 && |payload| < 0x4000
  }

  predicate Framed(p: Packet) { p.Event? ==> Carries(p.id, p.payload) }

  function Bytes(p: Packet): (s: seq<byte>)
    ensures |s| >= 1
  {
    match p
    case Event(id, payload, delta) =>
      (if id < 24 then [id as byte] else Leb(id) + Leb(|payload|)) + payload + Leb(delta)
    case Overflow(drops, delta) => [1] + Leb(drops) + Leb(delta)
  }

  function Stream(ps: seq<Packet>): seq<byte> {
    if ps == [] then [] else Stream(ps[..|ps| - 1]) + Bytes(ps[|ps| - 1])
  }

  /** The packet at the front of a stream and the rest of the stream. */
  function DecodePacket(s: seq<byte>): (r: Option<(Packet, seq<byte>)>)
    ensures r.Some? ==> |r.value.1| < |s|
  {
    if s == [] then None
    else if s[0] == 1 then
      match DecodeLeb(s[1..])
      case None => None
      case Some(drops) =>
        match DecodeLeb(drops.1)
        case None => None
        case Some(delta) => Some((Overflow(drops.0, delta.0), delta.1))
    else if s[0] < 24 then
      match SkipPayload(s[0] as nat, s[1..])
      case None => None
      case Some(t) =>
        match DecodeLeb(t)
        case None => None
        case Some(delta) => Some((Event(s[0] as nat, s[1..|s| - |t|], delta.0), delta.1))
    else
      match DecodeLeb(s)
      case None => None
      case Some(id) =>
        match DecodeLeb(id.1)
        case None => None
        case Some(len) =>
          if |len.1| < len.0 then None
          else
            match DecodeLeb(len.1[len.0..])
            case None => None
            case Some(delta) => Some((Event(id.0, len.1[..len.0], delta.0), delta.1))
  }

  function DecodeStream(s: seq<byte>): Option<seq<Packet>>
    decreases |s|
  {
    if s == [] then Some([])
    else
      match DecodePacket(s)
      case None => None
      case Some(p) =>
        match DecodeStream(p.1)
        case None => None
        case Some(ps) => Some([p.0] + ps)
  }

  lemma LebFirst(v: nat)
    requires v >= 24
    ensures Leb(v)[0] >= 24
  {
  }

  /** What is read at the front does not depend on what follows. */
  lemma {:induction false} DecodeMore(s: seq<byte>, x: seq<byte>)
    requires DecodeLeb(s).Some?
    ensures DecodeLeb(s + x) == Some((DecodeLeb(s).value.0, DecodeLeb(s).value.1 + x))
  {
    assert (s + x)[1..] == s[1..] + x;
    if s[0] >= 0x80 { DecodeMore(s[1..], x); }
  }

  lemma {:induction false} SkipMore(s: seq<byte>, n: nat, x: seq<byte>)
    requires SkipNumbers(s, n).Some?
    ensures SkipNumbers(s + x, n) == Some(SkipNumbers(s, n).value + x)
    decreases n
  {
    hide DecodeLeb;
    if n > 0 {
      DecodeMore(s, x);
      SkipMore(DecodeLeb(s).value.1, n - 1, x);
    }
  }

  lemma TextMore(s: seq<byte>, x: seq<byte>)
    requires SkipText(s).Some?
    ensures SkipText(s + x) == Some(SkipText(s).value + x)
  {
    var n := |s| - |SkipText(s).value|;
    assert (s + x)[n..] == s[n..] + x;
  }

  lemma PayloadMore(id: nat, payload: seq<byte>, x: seq<byte>)
    requires SkipPayload(id, payload) == Some([])
    ensures SkipPayload(id, payload + x) == Some(x)
  {
    hide SkipNumbers, SkipText;
    SkipMore(payload, Numbers(id), x);
    assert [] + x == x;
    if HasText(id) { TextMore(SkipNumbers(payload, Numbers(id)).value, x); }
  }

  function LebAll(vs: seq<nat>): seq<byte> {
    if vs == [] then [] else Leb(vs[0]) + LebAll(vs[1..])
  }

  lemma {:induction false} SkipAll(vs: seq<nat>, rest: seq<byte>)
    ensures SkipNumbers(LebAll(vs) + rest, |vs|) == Some(rest)
    decreases |vs|
  {
    hide Leb, DecodeLeb;
    if vs == [] {
      assert LebAll(vs) + rest == rest;
    } else {
      assert LebAll(vs) + rest == Leb(vs[0]) + (LebAll(vs[1..]) + rest);
      LebRoundTrip(vs[0], LebAll(vs[1..]) + rest);
      SkipAll(vs[1..], rest);
    }
  }

  /** The functions that record a known event, with its numbers and its text, write a payload that the stream
      can carry. */
  lemma KnownIsCarried(id: nat, vs: seq<nat>, cs: seq<byte>)
    requires id < 24 && id != 1 && |vs| == Numbers(id) && |cs| < 0x1_0000
    ensures Carries(id, LebAll(vs) + if HasText(id) then Text(cs) else [])
  {
    hide SkipNumbers;
    SkipAll(vs, if HasText(id) then Text(cs) else []);
  }

  lemma KnownRoundTrip(id: nat, payload: seq<byte>, delta: nat, rest: seq<byte>)
    requires id < 24 && Carries(id, payload)
    ensures DecodePacket(Bytes(Event(id, payload, delta)) + rest) == Some((Event(id, payload, delta), rest))
  {
    hide Leb, DecodeLeb, SkipPayload;
    var s, tail := Bytes(Event(id, payload, delta)) + rest, Leb(delta) + rest;
    assert s[1..] == payload + tail;
    PayloadMore(id, payload, tail);
    assert s[1..|s| - |tail|] == payload;
    LebRoundTrip(delta, rest);
  }

  lemma OverflowRoundTrip(drops: nat, delta: nat, rest: seq<byte>)
    ensures DecodePacket(Bytes(Overflow(drops, delta)) + rest) == Some((Overflow(drops, delta), rest))
  {
    hide Leb, DecodeLeb;
    var s := Bytes(Overflow(drops, delta)) + rest;
    assert s[1..] == Leb(drops) + (Leb(delta) + rest);
    LebRoundTrip(drops, Leb(delta) + rest);
    LebRoundTrip(delta, rest);
  }

  lemma EventRoundTrip(id: nat, payload: seq<byte>, delta: nat, rest: seq<byte>)
    requires id >= 24
    ensures DecodePacket(Bytes(Event(id, payload, delta)) + rest) == Some((Event(id, payload, delta), rest))
  {
    hide Leb, DecodeLeb;
    var s, tail := Bytes(Event(id, payload, delta)) + rest, Leb(delta) + rest;
    assert s == Leb(id) + (Leb(|payload|) + (payload + tail));
    LebRoundTrip(id, Leb(|payload|) + (payload + tail));
    LebRoundTrip(|payload|, payload + tail);
    assert (payload + tail)[|payload|..] == tail && (payload + tail)[..|payload|] == payload;
    LebRoundTrip(delta, rest);
    LebFirst(id);
  }

  /** A packet at the front of a stream is read back, whatever follows. */
  lemma PacketRoundTrip(p: Packet, rest: seq<byte>)
    requires Framed(p)
    ensures DecodePacket(Bytes(p) + rest) == Some((p, rest))
  {
    match p
    case Overflow(drops, delta) => OverflowRoundTrip(drops, delta, rest);
    case Event(id, payload, delta) =>
      if id < 24 { KnownRoundTrip(id, payload, delta, rest); } else { EventRoundTrip(id, payload, delta, rest); }
  }

  function Prefixed(ps: seq<Packet>, r: Option<seq<Packet>>): Option<seq<Packet>> {
    match r case None => None case Some(qs) => Some(ps + qs)
  }

  lemma DecodeCons(p: Packet, s: seq<byte>)
    requires Framed(p)
    ensures DecodeStream(Bytes(p) + s) == Prefixed([p], DecodeStream(s))
  {
    hide DecodePacket, Bytes;
    PacketRoundTrip(p, s);
    assert Bytes(p) + s != [];
  }

  lemma {:induction false} DecodeAppend(ps: seq<Packet>, s: seq<byte>)
    requires forall i :: 0 <= i < |ps| ==> Framed(ps[i])
    ensures DecodeStream(Stream(ps) + s) == Prefixed(ps, DecodeStream(s))
    decreases |ps|
  {
    hide DecodeStream, Bytes;
    if ps == [] {
      assert Stream(ps) + s == s;
      if DecodeStream(s).Some? { assert ps + DecodeStream(s).value == DecodeStream(s).value; }
    } else {
      var k := |ps| - 1;
      var front, p := ps[..k], ps[k];
      DecodeAppend(front, Bytes(p) + s);
      assert Stream(ps) + s == Stream(front) + (Bytes(p) + s);
      DecodeCons(p, s);
      if DecodeStream(s).Some? {
        var qs := DecodeStream(s).value;
        assert front + ([p] + qs) == ps + qs;
      }
    }
  }

  /** Every stream of framed packets decodes to exactly those packets. */
  lemma StreamRoundTrip(ps: seq<Packet>)
    requires forall i :: 0 <= i < |ps| ==> Framed(ps[i])
    ensures DecodeStream(Stream(ps)) == Some(ps)
  {
    DecodeAppend(ps, []);
    assert Stream(ps) + [] == Stream(ps) && ps + [] == ps;
  }

  /** Writes a header number backwards, so that it ends before position `end`. */
  method Prepend(buf: array<byte>, end: nat, v: nat) returns (s: nat)
    requires 2 <= end <= buf.Length && v < 0x4000
    modifies buf
    ensures end - 2 <= s <= end && buf[s..end] == Leb(v)
    ensures forall p :: 0 <= p < buf.Length && !(s <= p < end) ==> buf[p] == old(buf[p])
  {
    LebTwo(v);
    hide Leb;
    s := end;
    if v > 127 {
      s := s - 1;
      buf[s] := (v / 0x80) as byte;
      s := s - 1;
      buf[s] := (v % 0x80 + 0x80) as byte;
    } else {
      s := s - 1;
      buf[s] := v as byte;
    }
  }

  lemma Slices(b: seq<byte>, i: nat, j: nat, k: nat)
    requires i <= j <= k <= |b|
    ensures b[i..k] == b[i..j] + b[j..k]
  {
  }

  /** The layout part of _SendPacket: the caller left four bytes before the payload, into which length and
      id are prepended backwards; the time stamp difference is appended. */
  method BuildPacket(buf: array<byte>, start: nat, end: nat, id: nat, delta: nat) returns (s: nat, e: nat)
    requires 4 <= start <= end && end + 5 <= buf.Length
    requires id < 0x4000 && end - start < 0x4000 && delta < U32
    modifies buf
    ensures s <= start && end <= e <= buf.Length
    ensures buf[s..e] == Bytes(Event(id, old(buf[start..end]), delta))
  {
    hide Leb;
    ghost var payload := buf[start..end];
    s := start;
    if id < 24 {
      s := s - 1;
      buf[s] := id as byte;
      assert buf[s..end] == [id as byte] + payload;
    } else {
      s := Prepend(buf, s, end - start);
      Slices(buf[..], s, start, end);
      ghost var m, body := s, buf[s..end];
      s := Prepend(buf, s, id);
      Slices(buf[..], s, m, end);
      assert buf[m..end] == body;
      assert buf[s..end] == Leb(id) + Leb(end - start) + payload;
    }
    ghost var head := buf[s..end];
    LebFits(delta);
    e := EncodeU32(buf, end, delta);
    Slices(buf[..], s, end, e);
    assert buf[s..end] == head;
  }
}
