/** The SystemView recorder: packets go into an all-or-nothing ring; while it drops them it counts them and
    tries to report the count first. */
module Recorder {
  import opened KernelTypes
  import opened RttRing
  import opened Sysview

  /** Enable state (0 off, 1 on, 2 dropping), drop counter, time of the last stored packet, masked events. */
  datatype Rec = Rec(enable: nat, drops: nat, last: nat, disabled: set<nat>)

  datatype Outcome = Off | Kept | Masked | Lost

  datatype Sent = Sent(rec: Rec, packets: seq<Packet>, outcome: Outcome)

  predicate Sane(v: Rec) {
    v.enable <= 2 && v.drops < U32 && v.last < U32
  }

  // ---- one request ----------------------------------------------------------------------------

  /** _TrySendOverflowPacket. */
  function TryOverflow(v: Rec, free: nat, ts: nat): (r: (Rec, seq<Packet>))
    requires v.enable == 2
    ensures |Stream(r.1)| <= free && (r.0.enable == 1 <==> r.1 != [])
  {
    var p := Overflow(v.drops, Sub32(ts, v.last));
    StreamOne(p);
    if |Bytes(p)| <= free then (v.(last := ts, enable := v.enable - 1), [p])
    else (v.(drops := Add32(v.drops, 1)), [])
  }

  /** _SendPacket from its label on. */
  function SendEvent(v: Rec, free: nat, id: nat, payload: seq<byte>, ts: nat): Sent {
    if id < 32 && id in v.disabled then Sent(v, [], Masked)
    else
      var p := Event(id, payload, Sub32(ts, v.last));
      if |Bytes(p)| <= free then Sent(v.(last := ts), [p], Kept)
      else Sent(v.(enable := v.enable + 1), [], Lost)
  }

  /** _SendPacket: the overflow packet and the event read the clock separately. */
  function Send(v: Rec, free: nat, id: nat, payload: seq<byte>, t1: nat, t2: nat): Sent
    requires Sane(v)
  {
    if v.enable == 1 then SendEvent(v, free, id, payload, t2)
    else if v.enable == 0 then Sent(v, [], Off)
    else
      var o := TryOverflow(v, free, t1);
      if o.0.enable != 1 then Sent(o.0, [], Lost)
      else
        var e := SendEvent(o.0, free - |Stream(o.1)|, id, payload, t2);
        Sent(e.rec, o.1 + e.packets, e.outcome)
  }

  lemma StreamOne(p: Packet)
    ensures Stream([p]) == Bytes(p)
  {
    assert [p][..0] == [];
  }

  lemma {:induction false} StreamAppend(ps: seq<Packet>, qs: seq<Packet>)
    ensures Stream(ps + qs) == Stream(ps) + Stream(qs)
    decreases |qs|
  {
    hide Bytes, Stream;
    if qs == [] {
      StreamNone();
      assert ps + qs == ps;
    } else {
      var k := |qs| - 1;
      StreamAppend(ps, qs[..k]);
      StreamSnoc(ps + qs[..k], qs[k]);
      StreamSnoc(qs[..k], qs[k]);
      assert qs == qs[..k] + [qs[k]] && ps + qs == ps + qs[..k] + [qs[k]];
      assert Stream(ps) + Stream(qs[..k]) + Bytes(qs[k]) == Stream(ps) + (Stream(qs[..k]) + Bytes(qs[k]));
    }
  }

  lemma StreamSnoc(ps: seq<Packet>, p: Packet)
    ensures Stream(ps + [p]) == Stream(ps) + Bytes(p)
  {
    hide Bytes;
    assert (ps + [p])[..|ps|] == ps;
  }

  // ---- the recorder ---------------------------------------------------------------------------

  class Recording {
    const ring: Ring
    var enable: nat
    var drops: nat
    var last: nat
    var disabled: set<nat>

    ghost predicate Valid()
      reads this, ring
    {
      ring.Valid() && Sane(View())
    }

    ghost function View(): Rec
      reads this
    {
      Rec(enable, drops, last, disabled)
    }

    constructor (size: nat, now: nat)
      requires 1 <= size < U32 && now < U32
      ensures Valid() && fresh(ring) && fresh(ring.buf) && ring.Contents() == [] && View() == Rec(0, 0, now, {})
    {
      ring := new Ring(size);
      enable, drops, last, disabled := 0, 0, now, {};
    }

    method TrySendOverflowPacket(ts: nat)
      requires Valid() && enable == 2 && ts < U32
      modifies this`enable, this`drops, this`last, ring`wr, ring.buf
      ensures Valid()
      ensures var o := TryOverflow(old(View()), old(ring.Free()), ts);
        View() == o.0 && ring.Contents() == old(ring.Contents()) + Stream(o.1)
    {
      hide Leb, Stream;
      var packet := new byte[11];
      packet[0] := 1;
      LebFits(drops);
      var end := EncodeU32(packet, 1, drops);
      assert packet[..end] == [1] + Leb(drops) by { Slices(packet[..], 0, 1, end); }
      ghost var head := packet[..end];
      var delta := Sub32(ts, last);
      LebFits(delta);
      var stop := EncodeU32(packet, end, delta);
      assert packet[..end] == head;
      ghost var p := Overflow(drops, delta);
      assert packet[..stop] == Bytes(p) by { Slices(packet[..], 0, end, stop); }
      StreamOne(p);
      StreamNone();
      var ok := ring.WriteSkip(packet[..stop]);
      if ok {
        last := ts;
        enable := enable - 1;
      } else {
        drops := Add32(drops, 1);
      }
    }

    /** _SendPacket with the payload at `packet[start..end]` and four bytes reserved before it. */
    method SendPacket(packet: array<byte>, start: nat, end: nat, id: nat, t1: nat, t2: nat)
      requires Valid() && packet != ring.buf && t1 < U32 && t2 < U32
      requires 4 <= start <= end && end + 5 <= packet.Length && id < 0x4000 && end - start < 0x4000
      modifies this`enable, this`drops, this`last, ring`wr, ring.buf, packet
      ensures Valid()
      ensures var r := Send(old(View()), old(ring.Free()), id, old(packet[start..end]), t1, t2);
        View() == r.rec && ring.Contents() == old(ring.Contents()) + Stream(r.packets)
      ensures ring.Contents() == old(ring.Contents())
        + Stream(Emits(old(View()), old(ring.Free()), id, old(packet[start..end]), t1, t2))
    {
      hide Stream, Bytes;
      StreamNone();
      OutcomeExactly(View(), ring.Free(), id, packet[start..end], t1, t2);
      if enable == 1 {
        SendFromLabel(packet, start, end, id, t2);
      } else if enable == 0 {
      } else {
        ghost var before, was, payload := View(), ring.Contents(), packet[start..end];
        ghost var free := ring.Free();
        TrySendOverflowPacket(t1);
        ghost var o := TryOverflow(before, free, t1);
        if enable == 1 {
          ghost var mid, left := View(), ring.Free();
          assert left == free - |Stream(o.1)|;
          assert packet[start..end] == payload;
          SendFromLabel(packet, start, end, id, t2);
          ghost var e := SendEvent(mid, left, id, payload, t2);
          StreamAppend(o.1, e.packets);
          assert was + Stream(o.1) + Stream(e.packets) == was + (Stream(o.1) + Stream(e.packets));
        }
      }
    }

    method SendFromLabel(packet: array<byte>, start: nat, end: nat, id: nat, ts: nat)
      requires Valid() && enable == 1 && packet != ring.buf && ts < U32
      requires 4 <= start <= end && end + 5 <= packet.Length && id < 0x4000 && end - start < 0x4000
      modifies this`enable, this`last, ring`wr, ring.buf, packet
      ensures Valid()
      ensures var r := SendEvent(old(View()), old(ring.Free()), id, old(packet[start..end]), ts);
        View() == r.rec && ring.Contents() == old(ring.Contents()) + Stream(r.packets)
    {
      hide Stream, Bytes;
      StreamNone();
      if id < 32 && id in disabled {
        return;
      }
      var delta := Sub32(ts, last);
      ghost var p := Event(id, packet[start..end], delta);
      StreamOne(p);
      var s, e := BuildPacket(packet, start, end, id, delta);
      var ok := ring.WriteSkip(packet[s..e]);
      if ok {
        last := ts;
      } else {
        enable := enable + 1;
      }
    }
  }

  lemma StreamNone()
    ensures Stream([]) == [] && forall s: seq<byte> :: s + [] == s
  {
  }

  // ---- whole runs -----------------------------------------------------------------------------

  /** What happens to the recorder while it is on: requests to record, the host reading the channel, and
      changes of the event mask. */
  datatype Move =
    | Request(id: nat, payload: seq<byte>, t1: nat, t2: nat)
    | HostReads(n: nat)
    | Mask(disabled: set<nat>)

  predicate Allowed(m: Move) {
    m.Request? ==> Carries(m.id, m.payload) && m.t1 < U32 && m.t2 < U32
  }

  /** The recorder, its ring of `cap` usable bytes, the bytes the host took, and the history: the packets
      stored, the time each was stored and the number of losses by then, the requests kept, the losses. */
  datatype Run = Run(rec: Rec, cap: nat, ring: seq<byte>, host: seq<byte>,
    stored: seq<Packet>, times: seq<nat>, lostBy: seq<nat>, kept: seq<(nat, seq<byte>)>, lost: nat)

  function NewRun(cap: nat, t0: nat): Run {
    Run(Rec(1, 0, t0, {}), cap, [], [], [], [], [], [], 0)
  }

  /** The clock readings that went into the packets of one request. */
  function Clocks(m: Move, ps: seq<Packet>): (ts: seq<nat>)
    requires m.Request?
    ensures |ts| == |ps|
  {
    seq(|ps|, i requires 0 <= i < |ps| => if ps[i].Overflow? then m.t1 else m.t2)
  }

  function Do(s: Run, m: Move): (t: Run)
    requires Sane(s.rec) && |s.ring| <= s.cap
  {
    match m
    case Request(id, payload, t1, t2) =>
      var r := Send(s.rec, s.cap - |s.ring|, id, payload, t1, t2);
      s.(rec := r.rec, ring := s.ring + Stream(r.packets), stored := s.stored + r.packets,
        times := s.times + Clocks(m, r.packets),
        lostBy := s.lostBy + seq(|r.packets|, i => s.lost),
        kept := if r.outcome == Kept then s.kept + [(id, payload)] else s.kept,
        lost := if r.outcome == Lost then s.lost + 1 else s.lost)
    case HostReads(n) =>
      var k := MinNat(n, |s.ring|);
      s.(ring := s.ring[k..], host := s.host + s.ring[..k])
    case Mask(disabled) => s.(rec := s.rec.(disabled := disabled))
  }

  function Overflows(ps: seq<Packet>): nat {
    if ps == [] then 0 else Overflows(ps[..|ps| - 1]) + if ps[|ps| - 1].Overflow? then 1 else 0
  }

  function Events(ps: seq<Packet>): seq<(nat, seq<byte>)> {
    if ps == [] then []
    else
      var p := ps[|ps| - 1];
      Events(ps[..|ps| - 1]) + if p.Event? then [(p.id, p.payload)] else []
  }

  /** The times a host computes from the differences, starting at `t0`. */
  function Times(t0: nat, ps: seq<Packet>): (ts: seq<nat>)
    ensures |ts| == |ps|
  {
    if ps == [] then []
    else
      var ts := Times(t0, ps[..|ps| - 1]);
      ts + [Add32(if ts == [] then t0 else ts[|ts| - 1], ps[|ps| - 1].delta)]
  }

  function LastTime(t0: nat, ts: seq<nat>): nat {
    if ts == [] then t0 else ts[|ts| - 1]
  }

  // ---- invariant ------------------------------------------------------------------------------

  ghost predicate AllFramed(ps: seq<Packet>) {
    forall i :: 0 <= i < |ps| ==> Framed(ps[i])
  }

  /** What each overflow packet says: its counter and the overflow packets so far add up to the losses. */
  ghost predicate Reported(ps: seq<Packet>, lostBy: seq<nat>) {
    |ps| == |lostBy| && forall i :: 0 <= i < |ps| ==> OneReported(ps, lostBy[i], i)
  }

  ghost predicate OneReported(ps: seq<Packet>, lost: nat, i: nat)
    requires i < |ps|
  {
    ps[i].Overflow? ==> (ps[i].drops + Overflows(ps[..i + 1])) % U32 == lost % U32
  }

  /** The history agrees with the byte stream and with the recorder's clock. */
  ghost predicate History(t0: nat, ps: seq<Packet>, times: seq<nat>, lostBy: seq<nat>,
    kept: seq<(nat, seq<byte>)>, bytes: seq<byte>, last: nat)
  {
    AllFramed(ps) && bytes == Stream(ps) && times == Times(t0, ps) && last == LastTime(t0, times) &&
    kept == Events(ps) && Reported(ps, lostBy)
  }

  /** Losses are the counter, plus the overflow packets, plus one that is still to be reported. */
  ghost predicate Counted(v: Rec, ps: seq<Packet>, lost: nat) {
    (v.drops + Overflows(ps) + v.enable - 1) % U32 == lost % U32
  }

  ghost predicate RunInv(t0: nat, s: Run) {
    Sane(s.rec) && s.rec.enable >= 1 && |s.ring| <= s.cap &&
    History(t0, s.stored, s.times, s.lostBy, s.kept, s.host + s.ring, s.rec.last) &&
    Counted(s.rec, s.stored, s.lost)
  }

  lemma TimesSnoc(t0: nat, ps: seq<Packet>, p: Packet)
    ensures Times(t0, ps + [p]) == Times(t0, ps) + [Add32(LastTime(t0, Times(t0, ps)), p.delta)]
  {
    assert (ps + [p])[..|ps|] == ps;
  }

  lemma EventsSnoc(ps: seq<Packet>, p: Packet)
    ensures Events(ps + [p]) == Events(ps) + if p.Event? then [(p.id, p.payload)] else []
    ensures Overflows(ps + [p]) == Overflows(ps) + if p.Overflow? then 1 else 0
  {
    assert (ps + [p])[..|ps|] == ps;
  }

  lemma ReportedSnoc(ps: seq<Packet>, lostBy: seq<nat>, p: Packet, lost: nat)
    requires Reported(ps, lostBy)
    requires p.Overflow? ==> (p.drops + Overflows(ps) + 1) % U32 == lost % U32
    ensures Reported(ps + [p], lostBy + [lost])
  {
    hide Overflows;
    var qs, at := ps + [p], lostBy + [lost];
    EventsSnoc(ps, p);
    forall i | 0 <= i < |qs| ensures OneReported(qs, at[i], i) {
      if i < |ps| {
        assert OneReported(ps, lostBy[i], i);
        assert qs[..i + 1] == ps[..i + 1];
      } else {
        assert qs[..i + 1] == qs;
      }
    }
  }

  /** The difference that goes into a packet brings the host's clock to the time of the packet. */
  lemma DeltaAdds(last: nat, ts: nat)
    requires last < U32 && ts < U32
    ensures Add32(last, Sub32(ts, last)) == ts
  {
  }

  lemma Push(t0: nat, ps: seq<Packet>, times: seq<nat>, lostBy: seq<nat>, kept: seq<(nat, seq<byte>)>,
    bytes: seq<byte>, last: nat, p: Packet, ts: nat, lost: nat)
    requires History(t0, ps, times, lostBy, kept, bytes, last) && Framed(p)
    requires last < U32 && ts < U32 && p.delta == Sub32(ts, last)
    requires p.Overflow? ==> (p.drops + Overflows(ps) + 1) % U32 == lost % U32
    ensures History(t0, ps + [p], times + [ts], lostBy + [lost],
      kept + (if p.Event? then [(p.id, p.payload)] else []), bytes + Bytes(p), ts)
  {
    hide Times, Events, Stream, Overflows, Reported, Add32, Sub32, Bytes;
    StreamSnoc(ps, p);
    TimesSnoc(t0, ps, p);
    EventsSnoc(ps, p);
    ReportedSnoc(ps, lostBy, p, lost);
    DeltaAdds(last, ts);
  }

  /** Storing a packet as a step on a whole run. */
  function Pushed(s: Run, v: Rec, p: Packet, ts: nat): Run {
    s.(rec := v, ring := s.ring + Bytes(p), stored := s.stored + [p], times := s.times + [ts],
      lostBy := s.lostBy + [s.lost], kept := if p.Event? then s.kept + [(p.id, p.payload)] else s.kept)
  }

  /** A request is at most two such steps. */
  lemma RequestSteps(s: Run, m: Move)
    requires m.Request? && Sane(s.rec) && s.rec.enable >= 1 && |s.ring| <= s.cap
    ensures Do(s, m) == AfterEvent(AfterOverflow(s, m.t1), m)
  {
    hide Bytes, Stream, TryOverflow;
    var free := s.cap - |s.ring|;
    if s.rec.enable == 2 {
      var o := TryOverflow(s.rec, free, m.t1);
      if o.1 == [] {
        NoPackets(s, m);
      } else {
        OverflowShape(s.rec, free, m.t1);
        var e := SendEvent(o.0, free - |Stream(o.1)|, m.id, m.payload, m.t2);
        StreamOne(o.1[0]);
        if e.packets == [] {
          assert o.1 + e.packets == o.1;
          OnePacket(s, m, o.1[0]);
        } else {
          assert o.1 + e.packets == [o.1[0], e.packets[0]];
          TwoPackets(s, m, o.1[0], e.packets[0]);
        }
      }
    } else {
      var e := SendEvent(s.rec, free, m.id, m.payload, m.t2);
      if e.packets == [] { NoPackets(s, m); } else { OnePacket(s, m, e.packets[0]); }
    }
  }

  lemma OverflowShape(v: Rec, free: nat, ts: nat)
    requires v.enable == 2
    ensures var o := TryOverflow(v, free, ts);
      o.1 != [] ==> o.1 == [Overflow(v.drops, Sub32(ts, v.last))] && o.0 == v.(last := ts, enable := 1)
    ensures var o := TryOverflow(v, free, ts);
      o.1 == [] ==> o.0 == v.(drops := Add32(v.drops, 1))
  {
  }

  /** What a request adds to the history, for none, one and two packets. */
  ghost function Added(s: Run, m: Move, ps: seq<Packet>): (seq<byte>, seq<Packet>, seq<nat>, seq<nat>)
    requires m.Request?
  {
    (s.ring + Stream(ps), s.stored + ps, s.times + Clocks(m, ps), s.lostBy + seq(|ps|, i => s.lost))
  }

  lemma NoPackets(s: Run, m: Move)
    requires m.Request?
    ensures Added(s, m, []) == (s.ring, s.stored, s.times, s.lostBy)
  {
    hide Bytes, Stream;
    StreamNone();
    assert s.stored + [] == s.stored && s.lostBy + seq(0, i => s.lost) == s.lostBy;
    assert s.times + Clocks(m, []) == s.times;
  }

  lemma OnePacket(s: Run, m: Move, p: Packet)
    requires m.Request?
    ensures Added(s, m, [p]) == (s.ring + Bytes(p), s.stored + [p],
      s.times + [if p.Overflow? then m.t1 else m.t2], s.lostBy + [s.lost])
  {
    hide Bytes, Stream;
    StreamOne(p);
    assert Clocks(m, [p]) == [if p.Overflow? then m.t1 else m.t2];
    assert seq(1, i => s.lost) == [s.lost];
  }

  lemma TwoPackets(s: Run, m: Move, p: Packet, q: Packet)
    requires m.Request? && p.Overflow? && q.Event?
    ensures Added(s, m, [p, q]) == (s.ring + Bytes(p) + Bytes(q), s.stored + [p] + [q],
      s.times + [m.t1] + [m.t2], s.lostBy + [s.lost] + [s.lost])
  {
    hide Bytes, Stream;
    StreamOne(p);
    StreamSnoc([p], q);
    assert [p, q] == [p] + [q];
    assert s.ring + (Bytes(p) + Bytes(q)) == s.ring + Bytes(p) + Bytes(q);
    assert s.stored + [p, q] == s.stored + [p] + [q];
    assert s.times + Clocks(m, [p, q]) == s.times + [m.t1] + [m.t2];
    assert s.lostBy + seq(2, i => s.lost) == s.lostBy + [s.lost] + [s.lost];
  }

  function AfterOverflow(s: Run, ts: nat): Run
    requires Sane(s.rec) && |s.ring| <= s.cap
  {
    if s.rec.enable != 2 then s
    else
      var o := TryOverflow(s.rec, s.cap - |s.ring|, ts);
      if o.1 == [] then s.(rec := o.0, lost := s.lost + 1) else Pushed(s, o.0, o.1[0], ts)
  }

  function AfterEvent(s: Run, m: Move): Run
    requires m.Request?
  {
    if s.rec.enable != 1 || |s.ring| > s.cap then s
    else
      var e := SendEvent(s.rec, s.cap - |s.ring|, m.id, m.payload, m.t2);
      if e.outcome == Kept then Pushed(s, e.rec, e.packets[0], m.t2)
      else if e.outcome == Lost then s.(rec := e.rec, lost := s.lost + 1)
      else s
  }

  // ---- every move keeps it --------------------------------------------------------------------

  lemma OverflowKeeps(t0: nat, s: Run, ts: nat)
    requires RunInv(t0, s) && ts < U32
    ensures RunInv(t0, AfterOverflow(s, ts))
  {
    hide History, Bytes, TryOverflow, Sub32, Add32, Overflows;
    if s.rec.enable == 2 {
      var free := s.cap - |s.ring|;
      var o := TryOverflow(s.rec, free, ts);
      OverflowShape(s.rec, free, ts);
      if o.1 == [] {
        CountUp(s.rec, s.stored, s.lost);
      } else {
        var p := o.1[0];
        StreamOne(p);
        Push(t0, s.stored, s.times, s.lostBy, s.kept, s.host + s.ring, s.rec.last, p, ts, s.lost);
        assert s.host + (s.ring + Bytes(p)) == s.host + s.ring + Bytes(p);
        assert s.kept + [] == s.kept;
        EventsSnoc(s.stored, p);
      }
    }
  }

  lemma CountUp(v: Rec, ps: seq<Packet>, lost: nat)
    requires Counted(v, ps, lost)
    ensures Counted(v.(drops := Add32(v.drops, 1)), ps, lost + 1)
    ensures Counted(v.(enable := v.enable + 1), ps, lost + 1)
  {
    var rest := Overflows(ps) + v.enable - 1;
    hide Overflows;
    SuccMod(v.drops + rest, lost);
    AddMod(v.drops + 1, rest);
  }

  lemma SuccMod(a: int, b: int)
    requires a % U32 == b % U32
    ensures (a + 1) % U32 == (b + 1) % U32
  {
  }

  lemma AddMod(a: int, b: int)
    ensures (a % U32 + b) % U32 == (a + b) % U32
  {
  }

  lemma EventKeeps(t0: nat, s: Run, m: Move)
    requires RunInv(t0, s) && m.Request? && Allowed(m)
    ensures RunInv(t0, AfterEvent(s, m))
  {
    hide History, Bytes, Sub32, Add32, Overflows;
    if s.rec.enable == 1 {
      var e := SendEvent(s.rec, s.cap - |s.ring|, m.id, m.payload, m.t2);
      CountUp(s.rec, s.stored, s.lost);
      if e.outcome == Kept {
        var p := e.packets[0];
        Push(t0, s.stored, s.times, s.lostBy, s.kept, s.host + s.ring, s.rec.last, p, m.t2, s.lost);
        assert s.host + (s.ring + Bytes(p)) == s.host + s.ring + Bytes(p);
        EventsSnoc(s.stored, p);
      }
    }
  }

  lemma MoveKeeps(t0: nat, s: Run, m: Move)
    requires RunInv(t0, s) && Allowed(m)
    ensures RunInv(t0, Do(s, m))
  {
    hide History, Overflows, Send, AfterEvent, AfterOverflow, Stream;
    match m
    case Request(_, _, _, _) =>
      OverflowKeeps(t0, s, m.t1);
      EventKeeps(t0, AfterOverflow(s, m.t1), m);
      RequestSteps(s, m);
    case HostReads(n) =>
      var k := MinNat(n, |s.ring|);
      assert s.host + s.ring == s.host + s.ring[..k] + s.ring[k..];
    case Mask(_) =>
  }

  function RunOf(t0: nat, s: Run, ms: seq<Move>): (r: Run)
    requires RunInv(t0, s) && forall i :: 0 <= i < |ms| ==> Allowed(ms[i])
    ensures RunInv(t0, r)
    decreases |ms|
  {
    if ms == [] then s
    else
      var p := RunOf(t0, s, ms[..|ms| - 1]);
      MoveKeeps(t0, p, ms[|ms| - 1]);
      Do(p, ms[|ms| - 1])
  }

  lemma NewRunInv(cap: nat, t0: nat)
    requires t0 < U32
    ensures RunInv(t0, NewRun(cap, t0))
  {
  }

  /** For every run: the bytes the host took and those in the ring decode to exactly the packets stored, the
      events among them are exactly the requests kept, in order, and the differences give back the time of
      each packet, however many packets were dropped between. */
  lemma StreamIsFaithful(cap: nat, t0: nat, ms: seq<Move>)
    requires t0 < U32 && forall i :: 0 <= i < |ms| ==> Allowed(ms[i])
    ensures RunInv(t0, NewRun(cap, t0))
    ensures var s := RunOf(t0, NewRun(cap, t0), ms);
      DecodeStream(s.host + s.ring) == Some(s.stored) && s.kept == Events(s.stored) &&
      Times(t0, s.stored) == s.times && s.rec.last == LastTime(t0, s.times)
  {
    NewRunInv(cap, t0);
    StreamRoundTrip(RunOf(t0, NewRun(cap, t0), ms).stored);
  }

  /** For every run: the losses are the drop counter, plus one for each overflow packet, plus one while the
      recorder is dropping; so a host that adds the counter of an overflow packet and the number of overflow
      packets up to it has the losses up to it. */
  lemma LossesAreReported(cap: nat, t0: nat, ms: seq<Move>)
    requires t0 < U32 && forall i :: 0 <= i < |ms| ==> Allowed(ms[i])
    ensures RunInv(t0, NewRun(cap, t0))
    ensures LossReport(RunOf(t0, NewRun(cap, t0), ms))
  {
    hide RunOf;
    NewRunInv(cap, t0);
    Reports(t0, RunOf(t0, NewRun(cap, t0), ms));
  }

  ghost predicate LossReport(s: Run) {
    1 <= s.rec.enable <= 2 && |s.lostBy| == |s.stored| &&
    s.lost % U32 == (s.rec.drops + Overflows(s.stored) + s.rec.enable - 1) % U32 &&
    forall i :: 0 <= i < |s.stored| && s.stored[i].Overflow? ==>
      (s.stored[i].drops + Overflows(s.stored[..i + 1])) % U32 == s.lostBy[i] % U32
  }

  lemma Reports(t0: nat, s: Run)
    requires RunInv(t0, s)
    ensures LossReport(s)
  {
    hide Overflows, Events, Times, Stream;
    forall i | 0 <= i < |s.stored| && s.stored[i].Overflow?
      ensures (s.stored[i].drops + Overflows(s.stored[..i + 1])) % U32 == s.lostBy[i] % U32
    {
      assert OneReported(s.stored, s.lostBy[i], i);
    }
  }

  /** One request: it is lost exactly when it is counted, once, by the drop counter or by entering the
      dropping state; entering counts also when an overflow packet left that state in the same request. */
  lemma LostOnce(v: Rec, free: nat, id: nat, payload: seq<byte>, t1: nat, t2: nat)
    requires Sane(v) && t1 < U32 && t2 < U32
    ensures var r := Send(v, free, id, payload, t1, t2);
      var counted := r.rec.drops != v.drops;
      var entered := r.rec.enable == 2 && (v.enable == 1 || r.packets != []);
      Sane(r.rec) && !(counted && entered) && (r.outcome == Lost <==> counted || entered) &&
      (counted ==> r.rec.drops == Add32(v.drops, 1)) &&
      (r.outcome == Kept <==> Events(r.packets) == [(id, payload)]) && |Stream(r.packets)| <= free
  {
    hide Bytes, Stream;
    StreamNone();
    if v.enable == 2 {
      var o := TryOverflow(v, free, t1);
      OverflowShape(v, free, t1);
      if o.1 != [] {
        SentShape(o.0, free - |Stream(o.1)|, id, payload, t2);
        var e := SendEvent(o.0, free - |Stream(o.1)|, id, payload, t2);
        StreamAppend(o.1, e.packets);
        EventsSnoc([], o.1[0]);
        if e.packets != [] { EventsSnoc(o.1, e.packets[0]); assert o.1 + e.packets == o.1 + [e.packets[0]]; }
      }
    } else {
      SentShape(v, free, id, payload, t2);
    }
  }

  lemma SentShape(v: Rec, free: nat, id: nat, payload: seq<byte>, ts: nat)
    ensures var e := SendEvent(v, free, id, payload, ts);
      |Stream(e.packets)| <= free && (e.outcome == Kept <==> e.packets != []) &&
      (e.packets != [] ==> Events(e.packets) == [(id, payload)])
  {
    hide Bytes;
    var p := Event(id, payload, Sub32(ts, v.last));
    StreamOne(p);
    EventsSnoc([], p);
    assert [] + [p] == [p];
  }

  // ---- which requests are recorded ------------------------------------------------------------

  /** The event is switched off. */
  predicate Barred(mask: set<nat>, id: nat) { id < 32 && id in mask }

  /** The request gets as far as its event: the recorder is on, or it is dropping and its overflow packet fits. */
  predicate Reaches(v: Rec, free: nat, t1: nat) {
    v.enable == 1 || (v.enable == 2 && |Bytes(Overflow(v.drops, Sub32(t1, v.last)))| <= free)
  }

  /** The packets that stand in the stream before the event of the request, and the packet of the event. */
  function Before(v: Rec, t1: nat): seq<Packet> {
    if v.enable == 2 then [Overflow(v.drops, Sub32(t1, v.last))] else []
  }

  function EventOf(v: Rec, id: nat, payload: seq<byte>, t1: nat, t2: nat): Packet {
    Event(id, payload, Sub32(t2, if v.enable == 2 then t1 else v.last))
  }

  /** The request is recorded: it gets as far as its event, which is not switched off and fits. */
  predicate Records(v: Rec, mask: set<nat>, free: nat, id: nat, payload: seq<byte>, t1: nat, t2: nat) {
    && Reaches(v, free, t1) && !Barred(mask, id)
    && |Stream(Before(v, t1))| + |Bytes(EventOf(v, id, payload, t1, t2))| <= free
  }

  /** The packets that a request adds to the stream. */
  function Emits(v: Rec, free: nat, id: nat, payload: seq<byte>, t1: nat, t2: nat): seq<Packet> {
    (if Reaches(v, free, t1) then Before(v, t1) else [])
    + (if Records(v, v.disabled, free, id, payload, t1, t2) then [EventOf(v, id, payload, t1, t2)] else [])
  }

  /** The outcome of every request, from the state before it, and exactly what it stores. */
  lemma OutcomeExactly(v: Rec, free: nat, id: nat, payload: seq<byte>, t1: nat, t2: nat)
    requires Sane(v)
    ensures var r := Send(v, free, id, payload, t1, t2);
      && (r.outcome == Off <==> v.enable == 0)
      && (r.outcome == Masked <==> Reaches(v, free, t1) && Barred(v.disabled, id))
      && (r.outcome == Kept <==> Records(v, v.disabled, free, id, payload, t1, t2))
      && r.packets == Emits(v, free, id, payload, t1, t2)
  {
    hide Bytes, Stream, Sub32;
    StreamNone();
    if v.enable == 2 { StreamOne(Overflow(v.drops, Sub32(t1, v.last))); }
  }

  /** The mask in force after a run: the last one that was set. */
  function MaskAfter(mask: set<nat>, ms: seq<Move>): set<nat> {
    if ms == [] then mask
    else if ms[|ms| - 1].Mask? then ms[|ms| - 1].disabled
    else MaskAfter(mask, ms[..|ms| - 1])
  }

  /** The run so far, before the last move. */
  ghost function Earlier(cap: nat, t0: nat, ms: seq<Move>): Run
    requires t0 < U32 && ms != [] && forall i :: 0 <= i < |ms| ==> Allowed(ms[i])
  {
    NewRunInv(cap, t0);
    RunOf(t0, NewRun(cap, t0), ms[..|ms| - 1])
  }

  /** The requests of a run that are recorded, in order. */
  ghost function Recorded(cap: nat, t0: nat, ms: seq<Move>): seq<(nat, seq<byte>)>
    requires t0 < U32 && forall i :: 0 <= i < |ms| ==> Allowed(ms[i])
  {
    if ms == [] then [] else
    var k := |ms| - 1;
    var m, s := ms[k], Earlier(cap, t0, ms);
    Recorded(cap, t0, ms[..k]) +
    if m.Request? && Records(s.rec, MaskAfter({}, ms[..k]), s.cap - |s.ring|, m.id, m.payload, m.t1, m.t2)
    then [(m.id, m.payload)] else []
  }

  /** The number of requests of a run, without those that reach a recorder in which their event is switched
      off at that moment. */
  ghost function Wanted(cap: nat, t0: nat, ms: seq<Move>): nat
    requires t0 < U32 && forall i :: 0 <= i < |ms| ==> Allowed(ms[i])
  {
    if ms == [] then 0 else
    var k := |ms| - 1;
    var m, s := ms[k], Earlier(cap, t0, ms);
    Wanted(cap, t0, ms[..k]) +
    if m.Request? && !(Reaches(s.rec, s.cap - |s.ring|, m.t1) && Barred(MaskAfter({}, ms[..k]), m.id)) then 1 else 0
  }

  /** For every run: kept are exactly the requests that found the recorder reachable, their event switched on
      by the last mask that was set and room for it, in order; every other request is lost, unless it reached
      the recorder and its event was switched off. */
  lemma {:induction false} RequestsAccounted(cap: nat, t0: nat, ms: seq<Move>)
    requires t0 < U32 && forall i :: 0 <= i < |ms| ==> Allowed(ms[i])
    ensures RunInv(t0, NewRun(cap, t0))
    ensures var s := RunOf(t0, NewRun(cap, t0), ms);
      && s.rec.disabled == MaskAfter({}, ms) && s.kept == Recorded(cap, t0, ms)
      && |s.kept| + s.lost == Wanted(cap, t0, ms)
    decreases |ms|
  {
    NewRunInv(cap, t0);
    if ms != [] {
      var k := |ms| - 1;
      RequestsAccounted(cap, t0, ms[..k]);
      hide RunInv, Records, Reaches;
      var s, m := Earlier(cap, t0, ms), ms[k];
      RunFacts(t0, s);
      if m.Request? { RequestAccounted(s, m); }
    }
  }

  lemma RunFacts(t0: nat, s: Run)
    requires RunInv(t0, s)
    ensures Sane(s.rec) && s.rec.enable >= 1 && |s.ring| <= s.cap
  {
  }

  /** One request of a run. */
  lemma RequestAccounted(s: Run, m: Move)
    requires m.Request? && Sane(s.rec) && s.rec.enable >= 1 && |s.ring| <= s.cap
    ensures var t, free := Do(s, m), s.cap - |s.ring|;
      && t.rec.disabled == s.rec.disabled
      && t.kept == s.kept + (if Records(s.rec, s.rec.disabled, free, m.id, m.payload, m.t1, m.t2)
                             then [(m.id, m.payload)] else [])
      && |t.kept| + t.lost == |s.kept| + s.lost
           + if Reaches(s.rec, free, m.t1) && Barred(s.rec.disabled, m.id) then 0 else 1
  {
    hide Records, Reaches, Bytes, Stream;
    OutcomeExactly(s.rec, s.cap - |s.ring|, m.id, m.payload, m.t1, m.t2);
  }
}
