/** Virtual terminals on up-channel 0: a marker and an identifier switch the terminal of what follows. */
module RttTerminal {
  import opened RttRing

  const TERMINALS: nat := 16
  const MARKER: byte := 0xFF

  /** The identifier that the stream carries for a terminal: '0' to '9', then 'A' to 'F'. */
  function TerminalCode(id: nat): (c: byte)
    requires id < TERMINALS
    ensures c != MARKER && TerminalOf(c) == id
  {
    if id < 10 then 48 + id as byte else 55 + id as byte
  }

  function TerminalOf(c: byte): nat {
    if 48 <= c <= 57 then (c - 48) as nat else if 65 <= c <= 70 then (c - 55) as nat else TERMINALS
  }

  function SwitchTo(id: nat): seq<byte>
    requires id < TERMINALS
  {
    [MARKER, TerminalCode(id)]
  }

  // ---- what the host sees ---------------------------------------------------------------------

  /** What the host shows: each text byte with its terminal, and the terminal that is selected at the end.
      A marker without its identifier is left for later. */
  function Demux(s: seq<byte>, cur: nat): (r: (seq<(nat, byte)>, nat))
  {
    if s == [] then ([], cur)
    else if s[0] != MARKER then
      var r := Demux(s[1..], cur);
      ([(cur, s[0])] + r.0, r.1)
    else if |s| == 1 then ([], cur)
    else Demux(s[2..], TerminalOf(s[1]))
  }

  /** `s` consists of text bytes and complete switches. */
  ghost predicate Whole(s: seq<byte>) {
    if s == [] then true
    else if s[0] != MARKER then Whole(s[1..])
    else |s| >= 2 && Whole(s[2..])
  }

  /** Text without a marker byte. */
  ghost predicate Plain(s: seq<byte>) {
    forall i :: 0 <= i < |s| ==> s[i] != MARKER
  }

  function Tagged(id: nat, s: seq<byte>): (r: seq<(nat, byte)>) {
    seq(|s|, i requires 0 <= i < |s| => (id, s[i]))
  }

  lemma {:induction false} DemuxAppend(a: seq<byte>, b: seq<byte>, cur: nat)
    requires Whole(a)
    ensures Demux(a + b, cur) == (Demux(a, cur).0 + Demux(b, Demux(a, cur).1).0, Demux(b, Demux(a, cur).1).1)
    ensures Whole(b) ==> Whole(a + b)
    decreases |a|
  {
    if a == [] {
      assert a + b == b && [] + Demux(b, cur).0 == Demux(b, cur).0;
    } else if a[0] != MARKER {
      DemuxAppend(a[1..], b, cur);
      assert (a + b)[1..] == a[1..] + b;
      var rest := Demux(a[1..], cur);
      assert [(cur, a[0])] + (rest.0 + Demux(b, rest.1).0) == [(cur, a[0])] + rest.0 + Demux(b, rest.1).0;
    } else {
      DemuxAppend(a[2..], b, TerminalOf(a[1]));
      assert (a + b)[2..] == a[2..] + b;
    }
  }

  lemma {:induction false} DemuxPlain(s: seq<byte>, cur: nat)
    requires Plain(s)
    ensures Whole(s) && Demux(s, cur) == (Tagged(cur, s), cur)
    decreases |s|
  {
    if s != [] {
      DemuxPlain(s[1..], cur);
      assert Tagged(cur, s) == [(cur, s[0])] + Tagged(cur, s[1..]);
    }
  }

  lemma DemuxSwitch(id: nat, cur: nat)
    requires id < TERMINALS
    ensures Whole(SwitchTo(id)) && Demux(SwitchTo(id), cur) == ([], id)
  {
    var s := SwitchTo(id);
    assert s[2..] == [] && TerminalOf(s[1]) == id;
    assert Demux(s, cur) == Demux(s[2..], TerminalOf(s[1]));
  }

  /** Switch, text, switch back: the host shows the text on its terminal and then is where it was. */
  lemma DemuxFrame(id: nat, text: seq<byte>, active: nat, cur: nat)
    requires id < TERMINALS && active < TERMINALS && Plain(text)
    ensures var f := SwitchTo(id) + text + SwitchTo(active);
      Whole(f) && Demux(f, cur) == (Tagged(id, text), active)
  {
    var to, back := SwitchTo(id), SwitchTo(active);
    DemuxSwitch(id, cur);
    DemuxSwitch(active, id);
    DemuxPlain(text, id);
    DemuxAppend(text, back, id);
    DemuxAppend(to, text + back, cur);
    assert to + text + back == to + (text + back);
    assert Tagged(id, text) + [] == Tagged(id, text) && [] + Tagged(id, text) == Tagged(id, text);
  }

  /** The status that a terminal output returns when it completes, and the number of text bytes it stores. */
  function OutStatus(mode: nat, id: nat, len: nat, free: nat): int {
    if id >= TERMINALS then -1
    else match mode
      case 0 => if free < len + 4 then 0 else len
      case 1 => if free < 4 then -1 else MinNat(len, free - 4)
      case 2 => len
      case _ => -1
  }

  /** Whether anything is stored at all. */
  predicate OutStores(mode: nat, id: nat, len: nat, free: nat) {
    id < TERMINALS && match mode
      case 0 => len + 4 <= free
      case 1 => 4 <= free
      case 2 => true
      case _ => false
  }

  /** What the output puts into the stream. */
  function OutFrame(mode: nat, id: nat, text: seq<byte>, free: nat, active: nat): seq<byte>
    requires active < TERMINALS
  {
    if !OutStores(mode, id, |text|, free) then []
    else SwitchTo(id) + text[..OutStatus(mode, id, |text|, free)] + SwitchTo(active)
  }

  /** What the host takes before each load of the read offset in one blocking write. */
  predicate HostOk(host: seq<nat>) { forall j :: 0 <= j < |host| ==> host[j] < U32 }

  class Terminal {
    const ring: Ring
    const mode: nat
    var active: nat
    ghost var seen: seq<byte>    // everything that the host took

    ghost predicate Valid()
      reads this, ring
    {
      ring.Valid() && active < TERMINALS
    }

    /** Everything stored so far: what the host took, and what is still in the ring. */
    ghost function Stream(): seq<byte>
      reads this, ring, ring.buf
      requires Valid()
    {
      seen + ring.Contents()
    }

    /** The stream is complete and leaves the host, which started on terminal 0, on the active terminal. */
    ghost predicate InSync()
      reads this, ring, ring.buf
      requires Valid()
    {
      Whole(Stream()) && Demux(Stream(), 0).1 == active
    }

    constructor (size: nat, mode: nat)
      requires 1 <= size < U32
      ensures Valid() && InSync() && Stream() == [] && fresh(ring) && fresh(ring.buf) && this.mode == mode
    {
      ring := new Ring(size);
      this.mode := mode;
      active, seen := 0, [];
    }

    /** One blocking write: the stream grows by what was written; `blocked` when the write never ends. */
    method Put(data: seq<byte>, host: seq<nat>) returns (written: nat, taken: nat, blocked: bool)
      requires Valid() && HostOk(host)
      modifies this`seen, ring`wr, ring`rd, ring.buf
      ensures Valid() && written <= |data| && Stream() == old(Stream()) + data[..written]
      ensures blocked <==> written < |data|
      ensures blocked ==> ring.Free() == 0
      ensures ring.Free() + written == old(ring.Free()) + taken
    {
      hide Stored;
      ghost var was, inRing := seen, ring.Contents();
      var bytes;
      written, bytes, blocked := ring.WriteBlocking(data, host);
      Balance(bytes, ring.Contents(), inRing, data, written);
      Moves(was, bytes, ring.Contents(), inRing, data[..written]);
      taken := |bytes|;
      seen := was + bytes;
    }

    /** _PostTerminalSwitch. */
    method PostTerminalSwitch(id: nat, host: seq<nat>) returns (written: nat, taken: nat, blocked: bool)
      requires Valid() && HostOk(host) && id < TERMINALS
      modifies this`seen, ring`wr, ring`rd, ring.buf
      ensures Valid() && written <= 2 && Stream() == old(Stream()) + SwitchTo(id)[..written]
      ensures blocked <==> written < 2
      ensures blocked ==> ring.Free() == 0
      ensures ring.Free() + written == old(ring.Free()) + taken
    {
      written, taken, blocked := Put(SwitchTo(id), host);
    }

    /** The three blocking writes of one output, with what the host takes during each. */
    method Framed(id: nat, text: seq<byte>, hosts: (seq<nat>, seq<nat>, seq<nat>))
      returns (status: int, taken: nat, blocked: bool)
      requires Valid() && id < TERMINALS && HostOk(hosts.0) && HostOk(hosts.1) && HostOk(hosts.2)
      modifies this`seen, ring`wr, ring`rd, ring.buf
      ensures Valid() && (!blocked ==> status == |text|)
      ensures var frame := SwitchTo(id) + text + SwitchTo(active);
        && (blocked <==> |frame| > old(ring.Free()) + taken)
        && var n := if blocked then old(ring.Free()) + taken else |frame|;
           n <= |frame| && Stream() == old(Stream()) + frame[..n]
    {
      hide Stored;
      ghost var was, a, c := Stream(), SwitchTo(id), SwitchTo(active);
      status := 0;
      var n, t, b := PostTerminalSwitch(id, hosts.0);
      taken, blocked := t, b;
      Prefixes(was, a, text, c, n, 0, 0);
      if !blocked {
        var m, u, d := Put(text, hosts.1);
        status, taken, blocked := m, taken + u, d;
        Prefixes(was, a, text, c, 2, m, 0);
        if !blocked {
          var l, v, e := PostTerminalSwitch(active, hosts.2);
          taken, blocked := taken + v, e;
          Prefixes(was, a, text, c, 2, |text|, l);
        }
      }
    }

    /** SEGGER_RTT_TerminalOut. In skip and trim mode it never blocks, whatever the host does; in blocking mode
        it does so exactly when switch, text and switch back exceed the free space together with what the host
        took meanwhile. When it completes, the host shows exactly the stored text on its terminal and is back
        on the active one. */
    method TerminalOut(id: nat, text: seq<byte>, hosts: (seq<nat>, seq<nat>, seq<nat>))
      returns (status: int, taken: nat, blocked: bool)
      requires Valid() && |text| + 4 < U32 && HostOk(hosts.0) && HostOk(hosts.1) && HostOk(hosts.2)
      modifies this`seen, ring`wr, ring`rd, ring.buf
      ensures Valid()
      ensures blocked <==> id < TERMINALS && mode == BLOCK_IF_FIFO_FULL && |text| + 4 > old(ring.Free()) + taken
      ensures !blocked ==> status == OutStatus(mode, id, |text|, old(ring.Free()))
      ensures var frame := OutFrame(mode, id, text, old(ring.Free()), active);
        var n := if blocked then old(ring.Free()) + taken else |frame|;
        n <= |frame| && Stream() == old(Stream()) + frame[..n]
      ensures !blocked && old(InSync()) && Plain(text) ==>
        InSync() && Demux(Stream(), 0).0 == Demux(old(Stream()), 0).0 +
          if OutStores(mode, id, |text|, old(ring.Free())) then Tagged(id, text[..status]) else []
    {
      hide Stored, Demux, Whole;
      taken, blocked := 0, false;
      ghost var part := text;
      assert text[..|text|] == text && old(Stream()) + [] == old(Stream());
      if id < TERMINALS {
        var avail := ring.GetAvailWriteSpace();
        if mode == NO_BLOCK_SKIP {
          if avail < |text| + 4 {
            status := 0;
          } else {
            status, taken, blocked := Framed(id, text, hosts);
          }
        } else if mode == NO_BLOCK_TRIM {
          if avail < 4 {
            status := -1;
          } else {
            part := text[..if |text| < avail - 4 then |text| else avail - 4];
            status, taken, blocked :=
              Framed(id, text[..if |text| < avail - 4 then |text| else avail - 4], hosts);
          }
        } else if mode == BLOCK_IF_FIFO_FULL {
          status, taken, blocked := Framed(id, text, hosts);
        } else {
          status := -1;
        }
      } else {
        status := -1;
      }
      ghost var frame := OutFrame(mode, id, text, old(ring.Free()), active);
      assert frame[..|frame|] == frame;
      if !blocked && old(InSync()) && Plain(text) {
        if OutStores(mode, id, |text|, old(ring.Free())) {
          OutShown(old(Stream()), id, part, active);
        } else {
          assert Demux(old(Stream()), 0).0 + [] == Demux(old(Stream()), 0).0;
        }
      }
    }

    /** SEGGER_RTT_SetTerminal: the active terminal changes only together with its switch in the stream. In
        blocking mode the call never ends exactly when the switch exceeds the free space together with what the
        host took. */
    method SetTerminal(id: nat, host: seq<nat>) returns (r: int, taken: nat, blocked: bool)
      requires Valid() && HostOk(host)
      modifies this`active, this`seen, ring`wr, ring`rd, ring.buf
      ensures Valid()
      ensures blocked <==> id < TERMINALS && mode == BLOCK_IF_FIFO_FULL && 2 > old(ring.Free()) + taken
      ensures r == if id < TERMINALS && (mode == BLOCK_IF_FIFO_FULL || old(ring.Free()) >= 2) then 0 else -1
      ensures active == if r == 0 then id else old(active)
      ensures !blocked ==>
        Stream() == old(Stream()) + (if r == 0 then SwitchTo(id) else []) &&
        (old(InSync()) ==> InSync() && Demux(Stream(), 0).0 == Demux(old(Stream()), 0).0)
    {
      r, taken, blocked := 0, 0, false;
      if id < TERMINALS {
        if mode == BLOCK_IF_FIFO_FULL {
          active := id;
          var n;
          n, taken, blocked := Put(SwitchTo(id), host);
          assert !blocked ==> SwitchTo(id)[..n] == SwitchTo(id);
        } else {
          var avail := ring.GetAvailWriteSpace();
          if avail >= 2 {
            active := id;
            ring.WriteNoCheck(SwitchTo(id));
            assert seen + (old(ring.Contents()) + SwitchTo(id)) == old(Stream()) + SwitchTo(id);
          } else {
            r := -1;
          }
        }
      } else {
        r := -1;
      }
      if r == 0 {
        if !blocked && old(InSync()) { SwitchShown(old(Stream()), id, old(active)); }
      } else {
        assert old(Stream()) + [] == old(Stream());
      }
    }
  }

  lemma Moves(was: seq<byte>, bytes: seq<byte>, now: seq<byte>, inRing: seq<byte>, data: seq<byte>)
    requires bytes + now == inRing + data
    ensures was + bytes + now == was + inRing + data
  {
    assert was + bytes + now == was + (bytes + now);
    assert was + inRing + data == was + (inRing + data);
  }

  /** What was written after each part of a frame is a prefix of the frame. */
  lemma Prefixes(was: seq<byte>, a: seq<byte>, t: seq<byte>, c: seq<byte>, n: nat, m: nat, l: nat)
    requires n <= |a| && m <= |t| && l <= |c|
    ensures var frame := a + t + c;
      && was + a[..n] == was + frame[..n] && a[..|a|] == a
      && was + a + t[..m] == was + frame[..|a| + m] && t[..|t|] == t
      && was + a + t + c[..l] == was + frame[..|a| + |t| + l]
      && was + frame[..|a|] == was + a && was + frame[..|a| + |t|] == was + a + t
  {
    var frame := a + t + c;
    assert a[..n] == frame[..n] && frame[..|a|] == a && frame[..|a| + |t|] == a + t;
    assert a + t[..m] == frame[..|a| + m] && a + t + c[..l] == frame[..|a| + |t| + l];
    assert was + a + t[..m] == was + (a + t[..m]) && was + a + t + c[..l] == was + (a + t + c[..l]);
    assert was + a + t == was + (a + t);
  }

  /** An output on a stream that is in sync. */
  lemma OutShown(was: seq<byte>, id: nat, text: seq<byte>, active: nat)
    requires Whole(was) && id < TERMINALS && active < TERMINALS && Demux(was, 0).1 == active && Plain(text)
    ensures var s := was + (SwitchTo(id) + text + SwitchTo(active));
      Whole(s) && Demux(s, 0) == (Demux(was, 0).0 + Tagged(id, text), active)
  {
    DemuxFrame(id, text, active, active);
    DemuxAppend(was, SwitchTo(id) + text + SwitchTo(active), 0);
  }

  lemma SwitchShown(was: seq<byte>, id: nat, active: nat)
    requires Whole(was) && id < TERMINALS && Demux(was, 0).1 == active
    ensures Whole(was + SwitchTo(id)) && Demux(was + SwitchTo(id), 0) == (Demux(was, 0).0, id)
  {
    DemuxSwitch(id, active);
    DemuxAppend(was, SwitchTo(id), 0);
    assert Demux(was, 0).0 + [] == Demux(was, 0).0;
  }
}
