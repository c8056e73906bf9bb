/** The byte-stream parser of ahrs_driver.cpp: frame recognition, checksum tests, serial
    number bookkeeping and the frame buffers from which messages are published. */
module AhrsDriver {
  import opened CrcTable
  import opened Crc

  const FRAME_HEAD: bv8 := 0xfc
  const FRAME_END: bv8 := 0xfd
  const TYPE_IMU: bv8 := 0x40
  const TYPE_AHRS: bv8 := 0x41
  const TYPE_INSGPS: bv8 := 0x42
  const TYPE_GEODETIC_POS: bv8 := 0x5c
  const TYPE_GROUND: bv8 := 0xf0
  const TYPE_UNKNOWN: bv8 := 0x50
  const TYPE_FF: bv8 := 0xff

  predicate IsChecked(kind: bv8) {
    kind == TYPE_IMU || kind == TYPE_AHRS || kind == TYPE_INSGPS || kind == TYPE_GEODETIC_POS
  }

  predicate IsIgnored(kind: bv8) {
    kind == TYPE_GROUND || kind == TYPE_UNKNOWN
  }

  function BodyLength(kind: bv8): (n: nat)
    requires IsChecked(kind)
    ensures n <= 72
  {
    if kind == TYPE_IMU then 56 else if kind == TYPE_AHRS then 48 else if kind == TYPE_INSGPS then 72 else 32
  }

  /** The only length byte accepted for a checked type. */
  function LengthByte(kind: bv8): bv8
    requires IsChecked(kind)
  {
    if kind == TYPE_IMU then 0x38 else if kind == TYPE_AHRS then 0x30 else if kind == TYPE_INSGPS then 0x48 else 0x20
  }

  lemma LengthByteIsLength(kind: bv8)
    requires IsChecked(kind)
    ensures LengthByte(kind) as int == BodyLength(kind)
  {}

  /** What one pass of the read loop can leave behind: a frame that was skipped unread, or
      a body that was read into its buffer and either passed or failed its tests. */
  datatype Event =
    | Ignored(kind: bv8, sn: bv8)
    | Body(kind: bv8, sn: bv8, bytes: seq<bv8>, ok: bool)

  datatype Outcome = Wait | Read(used: nat, events: seq<Event>)

  function HeadCrc16(high: bv8, low: bv8): bv16 {
    Low(low) + High(high)
  }

  /** One pass of the loop over the bytes still to come, when every read is complete. */
  function ReadOne(s: seq<bv8>): (o: Outcome)
    ensures o.Read? ==> 1 <= o.used <= |s| && |o.events| <= 1
  {
    if |s| < 1 then Wait
    else if s[0] != FRAME_HEAD then Read(1, [])
    else if |s| < 2 then Wait
    else if !IsChecked(s[1]) && !IsIgnored(s[1]) && s[1] != TYPE_FF then Read(2, [])
    else if |s| < 3 then Wait
    else if IsChecked(s[1]) && s[2] != LengthByte(s[1]) then Read(3, [])
    else if IsIgnored(s[1]) then
      if |s| < 8 + s[2] as int then Wait else Read(8 + s[2] as int, [Ignored(s[1], s[3])])
    else if |s| < 7 then Wait
    else if s[1] == TYPE_FF then Read(7, [])
    else if Crc8(s[..4]) != s[4] then Read(7, [])
    else
      var n := BodyLength(s[1]);
      if |s| < 8 + n then Wait
      else Read(8 + n, [Body(s[1], s[3], s[7..7 + n],
        Crc16(s[7..7 + n]) == HeadCrc16(s[5], s[6]) && s[7 + n] == FRAME_END)])
  }

  /** Everything the loop gets out of `s`, and the position at which each event began. */
  datatype Sighting = Sighting(at: nat, event: Event)

  function Parse(s: seq<bv8>, base: nat): (r: seq<Sighting>)
    decreases |s|
  {
    match ReadOne(s)
    case Wait => []
    case Read(used, events) =>
      seq(|events|, i requires 0 <= i < |events| => Sighting(base, events[i])) + Parse(s[used..], base + used)
  }

  function Remaining(s: seq<bv8>): seq<bv8>
    decreases |s|
  {
    match ReadOne(s)
    case Wait => s
    case Read(used, _) => Remaining(s[used..])
  }

  // ---------------------------------------------------------------------------
  // The sender's side

  function Header(kind: bv8, sn: bv8): seq<bv8>
    requires IsChecked(kind)
  {
    [FRAME_HEAD, kind, LengthByte(kind), sn]
  }

  function HighByte(crc: bv16): bv8 { (crc >> 8) as bv8 }

  function LowByte(crc: bv16): bv8 { (crc & 0xff) as bv8 }

  /** A well-formed frame: header, CRC-8 of the header, CRC-16 of the body high byte first,
      body, end byte. */
  function EncodeFrame(kind: bv8, sn: bv8, payload: seq<bv8>): seq<bv8>
    requires IsChecked(kind) && |payload| == BodyLength(kind)
  {
    Header(kind, sn)
    + [Crc8(Header(kind, sn)), HighByte(Crc16(payload)), LowByte(Crc16(payload))]
    + payload + [FRAME_END]
  }

  /** What a stream is made of: frames, good, ignored or spoilt, and bytes that are no frame. A
      spoilt frame ends where the driver gives it up: at an unknown type, at a length that does not
      belong to the type, after the header, or after the body. */
  datatype Segment =
    | Good(kind: bv8, sn: bv8, payload: seq<bv8>)
    | Skipped(kind: bv8, sn: bv8, length: bv8, rest: seq<bv8>)
    | Filler(b: bv8)
    | UnknownType(kind: bv8)
    | WrongLength(kind: bv8, length: bv8)
    | Reserved(rest: seq<bv8>)
    | WrongHeader(kind: bv8, sn: bv8, crc8: bv8, high: bv8, low: bv8)
    | WrongBody(kind: bv8, sn: bv8, high: bv8, low: bv8, payload: seq<bv8>, end: bv8)
  {
    predicate Valid() {
      match this
      case Good(kind, _, payload) => IsChecked(kind) && |payload| == BodyLength(kind)
      case Skipped(kind, _, length, rest) => IsIgnored(kind) && |rest| == length as int + 4
      case Filler(b) => b != FRAME_HEAD
      case UnknownType(kind) => !IsChecked(kind) && !IsIgnored(kind) && kind != TYPE_FF
      case WrongLength(kind, length) => IsChecked(kind) && length != LengthByte(kind)
      case Reserved(rest) => |rest| == 5
      case WrongHeader(kind, sn, crc8, _, _) => IsChecked(kind) && crc8 != Crc8(Header(kind, sn))
      case WrongBody(kind, _, high, low, payload, end) => (
        && IsChecked(kind) && |payload| == BodyLength(kind)
        && (high != HighByte(Crc16(payload)) || low != LowByte(Crc16(payload)) || end != FRAME_END))
    }

    function Bytes(): seq<bv8>
      requires Valid()
    {
      match this
      case Good(kind, sn, payload) => EncodeFrame(kind, sn, payload)
      case Skipped(kind, sn, length, rest) => [FRAME_HEAD, kind, length, sn] + rest
      case Filler(b) => [b]
      case UnknownType(kind) => [FRAME_HEAD, kind]
      case WrongLength(kind, length) => [FRAME_HEAD, kind, length]
      case Reserved(rest) => [FRAME_HEAD, TYPE_FF] + rest
      case WrongHeader(kind, sn, crc8, high, low) => Header(kind, sn) + [crc8, high, low]
      case WrongBody(kind, sn, high, low, payload, end) => (
        Header(kind, sn) + [Crc8(Header(kind, sn)), high, low] + payload + [end])
    }

    function Events(): seq<Event> {
      match this
      case Good(kind, sn, payload) => [Body(kind, sn, payload, true)]
      case Skipped(kind, sn, _, _) => [Ignored(kind, sn)]
      case WrongBody(kind, sn, _, _, payload, _) => [Body(kind, sn, payload, false)]
      case _ => []
    }
  }

  function Transmit(segs: seq<Segment>): seq<bv8>
    requires forall x :: x in segs ==> x.Valid()
  {
    if segs == [] then [] else segs[0].Bytes() + Transmit(segs[1..])
  }

  function Expected(segs: seq<Segment>): seq<Event> {
    if segs == [] then [] else segs[0].Events() + Expected(segs[1..])
  }

  function Events(r: seq<Sighting>): seq<Event> {
    seq(|r|, i requires 0 <= i < |r| => r[i].event)
  }

  // ---------------------------------------------------------------------------
  // Completeness: a clean stream is read back exactly

  lemma BytesOfWord(crc: bv16)
    ensures HeadCrc16(HighByte(crc), LowByte(crc)) == crc
  {}

  lemma WordOfBytes(high: bv8, low: bv8)
    ensures HighByte(HeadCrc16(high, low)) == high && LowByte(HeadCrc16(high, low)) == low
  {}

  lemma Layout(header: seq<bv8>, sums: seq<bv8>, body: seq<bv8>, end: bv8, rest: seq<bv8>)
    requires |header| == 4 && |sums| == 3
    ensures var s := header + sums + body + [end] + rest;
      && s[..4] == header && s[4] == sums[0] && s[5] == sums[1] && s[6] == sums[2]
      && s[7..7 + |body|] == body && s[7 + |body|] == end
  {}

  lemma ReadOneGood(kind: bv8, sn: bv8, payload: seq<bv8>, rest: seq<bv8>)
    requires IsChecked(kind) && |payload| == BodyLength(kind)
    ensures ReadOne(EncodeFrame(kind, sn, payload) + rest)
      == Read(8 + |payload|, [Body(kind, sn, payload, true)])
  {
    hide Crc8;
    hide Crc16;
    hide HeadCrc16;
    hide HighByte;
    hide LowByte;
    var header := Header(kind, sn);
    var sums := [Crc8(header), HighByte(Crc16(payload)), LowByte(Crc16(payload))];
    Layout(header, sums, payload, FRAME_END, rest);
    BytesOfWord(Crc16(payload));
    var s := EncodeFrame(kind, sn, payload) + rest;
    assert s[0] == s[..4][0] && s[1] == s[..4][1] && s[2] == s[..4][2] && s[3] == s[..4][3];
  }

  lemma ReadOneWrongHeader(x: Segment, rest: seq<bv8>)
    requires x.WrongHeader? && x.Valid()
    ensures ReadOne(x.Bytes() + rest) == Read(7, [])
  {
    hide Crc8;
    hide Crc16;
    hide HeadCrc16;
    var s := x.Bytes() + rest;
    assert s[..4] == Header(x.kind, x.sn);
    assert s[4] == x.crc8;
  }

  lemma ReadOneWrongBody(x: Segment, rest: seq<bv8>)
    requires x.WrongBody? && x.Valid()
    ensures ReadOne(x.Bytes() + rest) == Read(8 + |x.payload|, [Body(x.kind, x.sn, x.payload, false)])
  {
    hide Crc8;
    hide Crc16;
    hide HeadCrc16;
    hide HighByte;
    hide LowByte;
    var header := Header(x.kind, x.sn);
    Layout(header, [Crc8(header), x.high, x.low], x.payload, x.end, rest);
    WordOfBytes(x.high, x.low);
    var s := x.Bytes() + rest;
    assert s[0] == s[..4][0] && s[1] == s[..4][1] && s[2] == s[..4][2] && s[3] == s[..4][3];
  }

  /** From a frame boundary one pass takes exactly one segment, whatever follows. */
  lemma ReadOneSegment(x: Segment, rest: seq<bv8>)
    requires x.Valid()
    ensures ReadOne(x.Bytes() + rest) == Read(|x.Bytes()|, x.Events())
  {
    hide Crc8;
    hide Crc16;
    hide HighByte;
    hide LowByte;
    if x.Good? {
      hide ReadOne;
      ReadOneGood(x.kind, x.sn, x.payload, rest);
    } else if x.WrongHeader? {
      hide ReadOne;
      ReadOneWrongHeader(x, rest);
    } else if x.WrongBody? {
      hide ReadOne;
      ReadOneWrongBody(x, rest);
    }
  }

  lemma EventsOfParse(s: seq<bv8>, base: nat)
    requires ReadOne(s).Read?
    ensures var used := ReadOne(s).used;
      Events(Parse(s, base)) == ReadOne(s).events + Events(Parse(s[used..], base + used))
  {
    hide ReadOne;
  }

  lemma {:induction false} ParseShift(s: seq<bv8>, a: nat, b: nat)
    ensures Events(Parse(s, a)) == Events(Parse(s, b))
    decreases |s|
  {
    hide ReadOne;
    match ReadOne(s) {
      case Wait =>
      case Read(used, events) =>
        ParseShift(s[used..], a + used, b + used);
        EventsOfParse(s, a);
        EventsOfParse(s, b);
    }
  }

  lemma ParseSegment(x: Segment, rest: seq<bv8>, base: nat)
    requires x.Valid()
    ensures Events(Parse(x.Bytes() + rest, base)) == x.Events() + Events(Parse(rest, 0))
    ensures Remaining(x.Bytes() + rest) == Remaining(rest)
  {
    hide ReadOne;
    hide Segment.Valid;
    hide Segment.Bytes;
    hide Segment.Events;
    var s := x.Bytes() + rest;
    ReadOneSegment(x, rest);
    EventsOfParse(s, base);
    assert s[|x.Bytes()|..] == rest;
    ParseShift(rest, base + |x.Bytes()|, 0);
  }

  /** From a frame boundary, any run of good, ignored and spoilt frames and stray bytes yields
      exactly their contents in order, whatever follows. */
  lemma {:induction false} ParseTransmit(segs: seq<Segment>, tail: seq<bv8>)
    requires forall x :: x in segs ==> x.Valid()
    ensures Events(Parse(Transmit(segs) + tail, 0)) == Expected(segs) + Events(Parse(tail, 0))
    ensures Remaining(Transmit(segs) + tail) == Remaining(tail)
    decreases |segs|
  {
    hide Parse;
    hide Events;
    hide Remaining;
    hide Segment.Bytes;
    hide Segment.Events;
    if segs == [] {
      assert Transmit(segs) + tail == tail;
    } else {
      var x, more := segs[0], segs[1..];
      assert Transmit(segs) + tail == x.Bytes() + (Transmit(more) + tail);
      ParseSegment(x, Transmit(more) + tail, 0);
      ParseTransmit(more, tail);
      assert Expected(segs) + Events(Parse(tail, 0)) == x.Events() + (Expected(more) + Events(Parse(tail, 0)));
    }
  }

  // ---------------------------------------------------------------------------
  // Every stream is such a run

  /** Bytes that are the beginning of a segment but not all of it. */
  ghost predicate Incomplete(tail: seq<bv8>) {
    exists x: Segment :: x.Valid() && tail < x.Bytes()
  }

  lemma Begins(tail: seq<bv8>, x: Segment)
    requires x.Valid() && tail < x.Bytes()
    ensures Incomplete(tail)
  {}

  function Padded(s: seq<bv8>, n: nat): (r: seq<bv8>)
    ensures |s| <= n ==> |r| == n && s <= r
  {
    if |s| <= n then s + seq(n - |s|, _ => 0) else s
  }

  /** A pass over a segment does not wait, but it does over a beginning of one. */
  lemma IncompleteWaits(tail: seq<bv8>)
    requires Incomplete(tail)
    ensures ReadOne(tail).Wait? && Events(Parse(tail, 0)) == [] && Remaining(tail) == tail
  {
    var x: Segment :| x.Valid() && tail < x.Bytes();
    BeginningWaits(x, tail);
  }

  lemma BeginningWaits(x: Segment, tail: seq<bv8>)
    requires x.Valid() && tail < x.Bytes()
    ensures ReadOne(tail).Wait?
  {
    hide Crc8;
    hide Crc16;
    hide HighByte;
    hide LowByte;
    hide HeadCrc16;
    var s := x.Bytes();
    assert forall k :: 0 <= k < |tail| ==> tail[k] == s[k];
    if |tail| > 4 && (x.Good? || x.WrongBody?) {
      assert s[..4] == Header(x.kind, x.sn) && tail[..4] == s[..4] && s[4] == Crc8(Header(x.kind, x.sn));
    }
  }

  /** Where a pass waits, a segment has begun. */
  lemma WaitingHasBegun(s: seq<bv8>)
    requires ReadOne(s).Wait?
    ensures Incomplete(s)
  {
    hide Crc8;
    hide Crc16;
    hide HighByte;
    hide LowByte;
    hide HeadCrc16;
    if s == [] {
      Begins(s, Filler(0));
    } else if |s| == 1 {
      Begins(s, UnknownType(0));
    } else if s[1] == TYPE_FF {
      var rest := Padded(s[2..], 5);
      assert s < [FRAME_HEAD, TYPE_FF] + rest;
      Begins(s, Reserved(rest));
    } else if IsIgnored(s[1]) {
      IgnoredHasBegun(s);
    } else {
      CheckedHasBegun(s);
    }
  }

  /** The beginning of two pieces, one after the other. */
  lemma JoinBegins(s: seq<bv8>, head: seq<bv8>, rest: seq<bv8>)
    requires if |s| <= |head| then s <= head else s[..|head|] == head && s[|head|..] <= rest
    ensures s <= head + rest
  {
    if |s| > |head| { assert s == head + s[|head|..]; }
  }

  function First(s: seq<bv8>, n: nat): seq<bv8> { if |s| <= n then s else s[..n] }

  function After(s: seq<bv8>, n: nat): seq<bv8> { if |s| <= n then [] else s[n..] }

  lemma IgnoredHasBegun(s: seq<bv8>)
    requires |s| >= 2 && s[0] == FRAME_HEAD && IsIgnored(s[1])
    requires |s| >= 3 ==> |s| < 8 + s[2] as int
    ensures Incomplete(s)
  {
    var head := Padded(First(s, 4), 4);
    var rest := Padded(After(s, 4), head[2] as int + 4);
    var x := Skipped(s[1], head[3], head[2], rest);
    assert x.Bytes() == head + rest;
    hide Padded;
    JoinBegins(s, head, rest);
    Begins(s, x);
  }

  lemma HeaderBegins(s: seq<bv8>, head: seq<bv8>)
    requires s < head && |head| == 7 && head[0] == FRAME_HEAD && IsChecked(head[1]) && head[2] == LengthByte(head[1])
    requires head[4] != Crc8(head[..4])
    ensures Incomplete(s)
  {
    hide Crc8;
    hide LengthByte;
    var header := Header(head[1], head[3]);
    assert head[..4] == header;
    var x := WrongHeader(head[1], head[3], head[4], head[5], head[6]);
    assert x.Bytes() == head;
    Begins(s, x);
  }

  lemma BodyBegins(s: seq<bv8>, head: seq<bv8>, payload: seq<bv8>)
    requires s <= head + payload && |head| == 7 && head[0] == FRAME_HEAD
    requires IsChecked(head[1]) && head[2] == LengthByte(head[1]) && |payload| == BodyLength(head[1])
    requires head[4] == Crc8(head[..4])
    ensures Incomplete(s)
  {
    hide Crc8;
    hide Crc16;
    hide HighByte;
    hide LowByte;
    hide LengthByte;
    hide BodyLength;
    var header := Header(head[1], head[3]);
    assert head[..4] == header;
    var x := WrongBody(head[1], head[3], head[5], head[6], payload, 0);
    assert head == header + [Crc8(header), head[5], head[6]];
    assert x.Bytes() == head + payload + [0];
    Begins(s, x);
  }

  lemma CheckedHasBegun(s: seq<bv8>)
    requires |s| >= 2 && s[0] == FRAME_HEAD && IsChecked(s[1]) && (|s| >= 3 ==> s[2] == LengthByte(s[1]))
    requires |s| >= 7 ==> Crc8(s[..4]) == s[4] && |s| < 8 + BodyLength(s[1])
    ensures Incomplete(s)
  {
    hide Incomplete;
    hide Crc8;
    if |s| == 2 {
      assert s < WrongLength(s[1], 0).Bytes();
      Begins(s, WrongLength(s[1], 0));
      return;
    }
    hide LengthByte;
    hide BodyLength;
    var head := Padded(First(s, 7), 7);
    if |s| < 7 && head[4] != Crc8(head[..4]) {
      HeaderBegins(s, head);
    } else {
      if |s| >= 7 { assert s[..4] == head[..4]; }
      var payload := Padded(After(s, 7), BodyLength(s[1]));
      hide Padded;
      JoinBegins(s, head, payload);
      BodyBegins(s, head, payload);
    }
  }

  /** The segment a pass has taken. */
  lemma TakenIsSegment(s: seq<bv8>) returns (x: Segment)
    requires ReadOne(s).Read?
    ensures x.Valid() && x.Bytes() == s[..ReadOne(s).used]
  {
    hide Crc8;
    hide Crc16;
    hide HighByte;
    hide LowByte;
    hide HeadCrc16;
    if s[0] != FRAME_HEAD {
      x := Filler(s[0]);
    } else if s[1] == TYPE_FF {
      x := Reserved(s[2..7]);
    } else if IsIgnored(s[1]) {
      x := Skipped(s[1], s[3], s[2], s[4..8 + s[2] as int]);
    } else if !IsChecked(s[1]) {
      x := UnknownType(s[1]);
    } else if s[2] != LengthByte(s[1]) {
      x := WrongLength(s[1], s[2]);
    } else {
      x := CheckedSegment(s);
    }
  }

  lemma CheckedSegment(s: seq<bv8>) returns (x: Segment)
    requires ReadOne(s).Read? && |s| >= 7 && s[0] == FRAME_HEAD && IsChecked(s[1]) && s[2] == LengthByte(s[1])
    ensures x.Valid() && x.Bytes() == s[..ReadOne(s).used]
  {
    hide Crc8;
    hide Crc16;
    hide HighByte;
    hide LowByte;
    hide HeadCrc16;
    var kind, sn := s[1], s[3];
    var header := Header(kind, sn);
    assert s[..4] == header;
    hide LengthByte;
    if Crc8(header) != s[4] {
      assert s[..7] == header + [s[4], s[5], s[6]];
      return WrongHeader(kind, sn, s[4], s[5], s[6]);
    }
    hide BodyLength;
    var n := BodyLength(kind);
    var payload := s[7..7 + n];
    assert s[..8 + n] == header + [s[4], s[5], s[6]] + payload + [s[7 + n]];
    if s[5] == HighByte(Crc16(payload)) && s[6] == LowByte(Crc16(payload)) && s[7 + n] == FRAME_END {
      return Good(kind, sn, payload);
    }
    return WrongBody(kind, sn, s[5], s[6], payload, s[7 + n]);
  }

  /** Every stream is a run of segments and then the beginning of one; the driver gets out of it
      exactly what the segments hold, in order, and waits at the beginning. */
  lemma {:induction false} EveryStreamIsTransmitted(s: seq<bv8>) returns (segs: seq<Segment>, tail: seq<bv8>)
    ensures forall x :: x in segs ==> x.Valid()
    ensures s == Transmit(segs) + tail && Incomplete(tail)
    ensures Events(Parse(s, 0)) == Expected(segs) && Remaining(s) == tail
    decreases |s|
  {
    hide ReadOne;
    hide Incomplete;
    hide Segment.Valid;
    hide Segment.Bytes;
    hide Segment.Events;
    hide Parse;
    hide Events;
    hide Remaining;
    match ReadOne(s) {
      case Wait =>
        WaitingHasBegun(s);
        segs, tail := [], s;
      case Read(used, _) =>
        var x := TakenIsSegment(s);
        var more;
        more, tail := EveryStreamIsTransmitted(s[used..]);
        segs := [x] + more;
        assert segs[1..] == more;
        assert s == s[..used] + s[used..];
    }
    ParseTransmit(segs, tail);
    IncompleteWaits(tail);
    assert Expected(segs) + [] == Expected(segs);
  }

  // ---------------------------------------------------------------------------
  // Soundness: what is accepted was there

  /** The bytes of `s` that an event accounts for. */
  predicate Spans(s: seq<bv8>, base: nat, g: Sighting) {
    && base <= g.at
    && match g.event
       case Ignored(kind, sn) =>
         && IsIgnored(kind)
         && g.at - base + 8 <= |s|
         && s[g.at - base] == FRAME_HEAD && s[g.at - base + 1] == kind && s[g.at - base + 3] == sn
         && g.at - base + 8 + s[g.at - base + 2] as int <= |s|
       case Body(kind, sn, bytes, ok) =>
         && IsChecked(kind) && |bytes| == BodyLength(kind)
         && g.at - base + 8 + |bytes| <= |s|
         && s[g.at - base..g.at - base + 4] == Header(kind, sn)
         && s[g.at - base + 4] == Crc8(Header(kind, sn))
         && s[g.at - base + 7..g.at - base + 7 + |bytes|] == bytes
         && (ok <==> s[g.at - base..g.at - base + 8 + |bytes|] == EncodeFrame(kind, sn, bytes))
  }

  lemma SpanOfRead(s: seq<bv8>, base: nat)
    requires ReadOne(s).Read? && |ReadOne(s).events| == 1
    ensures Spans(s, base, Sighting(base, ReadOne(s).events[0]))
  {
    hide Crc8;
    hide Crc16;
    hide HeadCrc16;
    hide HighByte;
    hide LowByte;
    var e := ReadOne(s).events[0];
    if e.Body? {
      var n := |e.bytes|;
      var h := Header(e.kind, e.sn);
      assert s[..4] == h;
      assert s[0..4] == s[..4];
      BytesOfWord(Crc16(e.bytes));
      WordOfBytes(s[5], s[6]);
      assert s[0..8 + n] == h + [s[4], s[5], s[6]] + e.bytes + [s[7 + n]];
      var f := EncodeFrame(e.kind, e.sn, e.bytes);
      assert f[5] == HighByte(Crc16(e.bytes)) && f[6] == LowByte(Crc16(e.bytes)) && f[7 + n] == FRAME_END;
      if s[0..8 + n] == f {
        assert s[5] == f[5] && s[6] == f[6] && s[7 + n] == f[7 + n];
      }
    }
  }

  lemma SpanShift(s: seq<bv8>, used: nat, base: nat, g: Sighting)
    requires used <= |s| && Spans(s[used..], base + used, g)
    ensures Spans(s, base, g)
  {
    hide Crc8;
    hide Header;
    hide EncodeFrame;
    var t, o := s[used..], g.at - base;
    if g.event.Body? {
      var n := |g.event.bytes|;
      assert t[o - used..o - used + 4] == s[o..o + 4];
      assert t[o - used + 7..o - used + 7 + n] == s[o + 7..o + 7 + n];
      assert t[o - used..o - used + 8 + n] == s[o..o + 8 + n];
    }
  }

  function Extent(e: Event): nat {
    match e
    case Ignored(_, _) => 8
    case Body(_, _, bytes, _) => 8 + |bytes|
  }

  lemma {:induction false} ParseSpans(s: seq<bv8>, base: nat)
    ensures forall g :: g in Parse(s, base) ==> Spans(s, base, g)
    decreases |s|
  {
    hide Spans;
    hide ReadOne;
    if ReadOne(s).Read? {
      var used, events := ReadOne(s).used, ReadOne(s).events;
      var more := Parse(s[used..], base + used);
      ParseSpans(s[used..], base + used);
      forall g | g in more ensures Spans(s, base, g) {
        SpanShift(s, used, base, g);
      }
      if |events| == 1 {
        SpanOfRead(s, base);
        assert Parse(s, base) == [Sighting(base, events[0])] + more;
      } else {
        assert Parse(s, base) == more;
      }
    }
  }

  predicate InOrder(r: seq<Sighting>) {
    forall i, j :: 0 <= i < j < |r| ==> r[i].at + Extent(r[i].event) <= r[j].at
  }

  lemma {:induction false} ParseInOrder(s: seq<bv8>, base: nat)
    ensures InOrder(Parse(s, base))
    decreases |s|
  {
    hide ReadOne;
    if ReadOne(s).Read? {
      var used, events := ReadOne(s).used, ReadOne(s).events;
      var more := Parse(s[used..], base + used);
      ParseInOrder(s[used..], base + used);
      SpansStart(s[used..], base + used);
      if |events| == 1 {
        UsedIsExtent(s);
        assert Parse(s, base) == [Sighting(base, events[0])] + more;
      } else {
        assert Parse(s, base) == more;
      }
    }
  }

  /** On any input whatever, each event is a contiguous span of the stream, an accepted
      frame is byte for byte a well-formed frame, a rejected one is not, and the spans come
      in order without overlap. */
  lemma ParseSound(s: seq<bv8>)
    ensures forall g :: g in Parse(s, 0) ==> Spans(s, 0, g)
    ensures InOrder(Parse(s, 0))
  {
    ParseSpans(s, 0);
    ParseInOrder(s, 0);
  }

  lemma UsedIsExtent(s: seq<bv8>)
    requires ReadOne(s).Read? && |ReadOne(s).events| == 1
    ensures Extent(ReadOne(s).events[0]) <= ReadOne(s).used
  {}

  lemma {:induction false} SpansStart(s: seq<bv8>, base: nat)
    ensures forall g :: g in Parse(s, base) ==> base <= g.at
    decreases |s|
  {
    hide ReadOne;
    if ReadOne(s).Read? {
      SpansStart(s[ReadOne(s).used..], base + ReadOne(s).used);
    }
  }

  // ---------------------------------------------------------------------------
  // Serial numbers

  datatype Count = Count(first: bool, readSn: int, lost: int)

  /** The comparison of `checkSN` and of the ignored-frame branch: the counter wraps in
      eight bits, the loss is a distance forward. */
  function Advance(c: Count, sn: int): Count {
    var next := (c.readSn + 1) % 256;
    if next == sn then c.(readSn := sn)
    else if sn < next then c.(readSn := sn, lost := c.lost + (256 - (next - sn)))
    else c.(readSn := sn, lost := c.lost + (sn - next))
  }

  predicate StartsCount(e: Event) {
    e.Body? && (e.kind == TYPE_IMU || e.kind == TYPE_AHRS || e.kind == TYPE_GEODETIC_POS)
  }

  function Tally(c: Count, e: Event): Count {
    var sn := e.sn as int;
    if StartsCount(e) && !c.first then
      Advance(c.(readSn := (sn + 255) % 256, first := true), sn)
    else Advance(c, sn)
  }

  function TallyAll(c: Count, es: seq<Event>): Count
    decreases |es|
  {
    if es == [] then c else TallyAll(Tally(c, es[0]), es[1..])
  }

  /** The sender numbers its frames `counters`, and puts the low eight bits in each. */
  predicate Sent(es: seq<Event>, counters: seq<int>) {
    && |es| == |counters|
    && (forall i :: 0 <= i < |es| ==> es[i].sn as int == counters[i] % 256)
    && (forall i :: 0 <= i < |es| - 1 ==> 1 <= counters[i + 1] - counters[i] <= 256)
  }

  lemma WrapForward(before: int, step: int)
    requires 1 <= step <= 256
    ensures var r := before % 256;
      (before + step) % 256 == if r + step < 256 then r + step else r + step - 256
  {
    var q, r := before / 256, before % 256;
    assert before + step == 256 * q + (r + step);
    if r + step >= 256 {
      assert before + step == 256 * (q + 1) + (r + step - 256);
    }
  }

  lemma AdvanceCounts(c: Count, before: int, after: int)
    requires c.readSn == before % 256 && 1 <= after - before <= 256
    ensures Advance(c, after % 256) == c.(readSn := after % 256, lost := c.lost + (after - before - 1))
  {
    WrapForward(before, after - before);
  }

  lemma {:induction false} LossFrom(c: Count, es: seq<Event>, counters: seq<int>, last: int)
    requires c.first && c.readSn == last % 256
    requires Sent(es, counters) && (es != [] ==> 1 <= counters[0] - last <= 256)
    ensures var d := TallyAll(c, es);
      d.first && (es == [] ==> d == c)
      && (es != [] ==> d.lost == c.lost + (counters[|es| - 1] - last) - |es|)
    decreases |es|
  {
    if es != [] {
      AdvanceCounts(c, last, counters[0]);
      LossFrom(Tally(c, es[0]), es[1..], counters[1..], counters[0]);
    }
  }

  lemma FirstTally(c: Count, e: Event)
    requires !c.first && StartsCount(e)
    ensures Tally(c, e) == c.(first := true, readSn := e.sn as int)
  {}

  /** Once an IMU, AHRS or geodetic frame has started the count, the loss counter is the
      number of frames the sender numbered but the receiver did not hear, through every
      eight-bit wrap and through ignored frames. */
  lemma LossIsSkippedFrames(c: Count, es: seq<Event>, counters: seq<int>)
    requires !c.first && es != [] && StartsCount(es[0]) && Sent(es, counters)
    ensures TallyAll(c, es).lost == c.lost + (counters[|es| - 1] - counters[0] + 1) - |es|
  {
    hide Tally;
    FirstTally(c, es[0]);
    LossFrom(Tally(c, es[0]), es[1..], counters[1..], counters[0]);
  }

  /** The first frame that starts the count, or the number of frames. */
  function FirstStart(es: seq<Event>): (k: nat)
    ensures k <= |es|
  {
    if es == [] || StartsCount(es[0]) then 0 else 1 + FirstStart(es[1..])
  }

  /** What a first frame that does not start the count is charged: the numbers after the stored
      one and before its own, around 256. */
  function Charge(readSn: int, es: seq<Event>): int
    requires es != []
  {
    if StartsCount(es[0]) then 0 else (es[0].sn as int - readSn - 1) % 256
  }

  /** The gap before the frame that starts the count: that frame overwrites the stored number, so
      its own gap is never charged. */
  function UnchargedGap(es: seq<Event>, counters: seq<int>): int
    requires |es| == |counters|
  {
    var k := FirstStart(es);
    if 0 < k < |es| then counters[k] - counters[k - 1] - 1 else 0
  }

  /** The frames numbered between the first and the last heard that were not heard. */
  function SkippedFrames(counters: seq<int>): int
    requires counters != []
  {
    counters[|counters| - 1] - counters[0] + 1 - |counters|
  }

  lemma AdvanceCharges(c: Count, sn: int)
    requires 0 <= sn < 256
    ensures Advance(c, sn) == c.(readSn := sn, lost := c.lost + (sn - c.readSn - 1) % 256)
  {
    var next, q := (c.readSn + 1) % 256, (c.readSn + 1) / 256;
    assert c.readSn + 1 == 256 * q + next;
    if sn < next {
      assert sn - c.readSn - 1 == 256 * (-q - 1) + (sn - next + 256);
    } else {
      assert sn - c.readSn - 1 == 256 * (-q) + (sn - next);
    }
  }

  lemma LateTally(c: Count, e: Event)
    requires !StartsCount(e)
    ensures Tally(c, e) == Advance(c, e.sn as int)
  {}

  lemma SentTail(es: seq<Event>, counters: seq<int>)
    requires Sent(es, counters) && es != []
    ensures Sent(es[1..], counters[1..]) && es[0].sn as int == counters[0] % 256
    ensures |es| > 1 ==> 1 <= counters[1] - counters[0] <= 256
  {}

  /** Until a frame starts the count every gap is charged but that frame's own. */
  lemma {:induction false} LossUntilStart(c: Count, es: seq<Event>, counters: seq<int>, last: int)
    requires !c.first && c.readSn == last % 256
    requires Sent(es, counters) && (es != [] ==> 1 <= counters[0] - last <= 256)
    ensures var k := FirstStart(es);
      var gap := if k == |es| then 0 else counters[k] - (if k == 0 then last else counters[k - 1]) - 1;
      es != [] ==> TallyAll(c, es).lost == c.lost + (counters[|es| - 1] - last) - |es| - gap
    decreases |es|
  {
    hide Tally;
    hide Advance;
    if es != [] {
      SentTail(es, counters);
      hide Sent;
      if StartsCount(es[0]) {
        FirstTally(c, es[0]);
        LossFrom(Tally(c, es[0]), es[1..], counters[1..], counters[0]);
      } else {
        LateTally(c, es[0]);
        AdvanceCounts(c, last, counters[0]);
        LossUntilStart(Tally(c, es[0]), es[1..], counters[1..], counters[0]);
      }
    }
  }

  /** On every stream the loss counter gains the frames skipped, plus the charge of a first frame
      that does not start the count, minus the gap before the one that does. */
  lemma LossExactly(c: Count, es: seq<Event>, counters: seq<int>)
    requires !c.first && es != [] && Sent(es, counters)
    ensures TallyAll(c, es).lost
         == c.lost + SkippedFrames(counters) + Charge(c.readSn, es) - UnchargedGap(es, counters)
  {
    hide Tally;
    hide Advance;
    SentTail(es, counters);
    hide Sent;
    if StartsCount(es[0]) {
      LossIsSkippedFrames(c, es, counters);
    } else {
      LateTally(c, es[0]);
      AdvanceCharges(c, es[0].sn as int);
      LossUntilStart(Tally(c, es[0]), es[1..], counters[1..], counters[0]);
    }
  }

  /** The loss counter gains exactly the frames skipped if and only if the first frame's charge is
      the gap before the frame that starts the count. */
  lemma LossIsExactIff(c: Count, es: seq<Event>, counters: seq<int>)
    requires !c.first && es != [] && Sent(es, counters)
    ensures TallyAll(c, es).lost == c.lost + SkippedFrames(counters)
       <==> Charge(c.readSn, es) == UnchargedGap(es, counters)
  {
    LossExactly(c, es, counters);
    hide TallyAll;
    hide Charge;
    hide UnchargedGap;
    hide SkippedFrames;
    hide Sent;
  }

  lemma LateStartLoss(kind: bv8, body: seq<bv8>, before: bv8, sn: bv8)
    requires IsIgnored(kind) && before < sn
    ensures var es := [Ignored(kind, before), Body(TYPE_IMU, sn, body, true)];
      && TallyAll(Count(false, 0, 0), es).lost == (before as int - 1) % 256
      && SkippedFrames([before as int, sn as int]) == sn as int - before as int - 1
  {
    hide Tally;
    var first, e := Ignored(kind, before), Body(TYPE_IMU, sn, body, true);
    var c := Tally(Count(false, 0, 0), first);
    assert [first, e][1..] == [e] && [e][1..] == [];
    LateTally(Count(false, 0, 0), first);
    AdvanceCharges(Count(false, 0, 0), before as int);
    hide Advance;
    FirstTally(c, e);
    assert TallyAll(c, [e]) == Tally(c, e);
  }

  /** An ignored frame numbered 1 and then an IMU frame numbered 10: no loss is counted though
      eight frames were skipped. With 5 and 10 the two errors cancel. */
  lemma LateStart(kind: bv8, body: seq<bv8>)
    requires IsIgnored(kind)
    ensures var es := [Ignored(kind, 1), Body(TYPE_IMU, 10, body, true)];
      TallyAll(Count(false, 0, 0), es).lost == 0 && SkippedFrames([1, 10]) == 8
    ensures var es := [Ignored(kind, 5), Body(TYPE_IMU, 10, body, true)];
      TallyAll(Count(false, 0, 0), es).lost == 4 == SkippedFrames([5, 10])
  {
    LateStartLoss(kind, body, 1, 10);
    LateStartLoss(kind, body, 5, 10);
    hide TallyAll;
  }

  /** The very first frame heard adds nothing to the loss exactly when it starts the count
      or happens to carry the number after the initial zero: an INS/GPS or ignored frame
      heard first is charged for every number before it. */
  lemma FirstFrameLoss(e: Event)
    ensures Tally(Count(false, 0, 0), e).lost == 0 <==>
      (e.Body? && (e.kind == TYPE_IMU || e.kind == TYPE_AHRS || e.kind == TYPE_GEODETIC_POS)) || e.sn == 1
  {
    hide Tally;
    hide Advance;
    if StartsCount(e) {
      FirstTally(Count(false, 0, 0), e);
    } else {
      LateTally(Count(false, 0, 0), e);
      AdvanceCharges(Count(false, 0, 0), e.sn as int);
    }
  }

  // ---------------------------------------------------------------------------
  // Which bytes are published

  /** An accepted IMU frame is published with the orientation found in the AHRS buffer, and
      an accepted AHRS frame with the magnetic field found in the IMU buffer. */
  datatype Message = Message(kind: bv8, own: seq<bv8>, other: seq<bv8>)

  datatype Buffers = Buffers(imu: seq<bv8>, ahrs: seq<bv8>)

  function Fill(b: Buffers, e: Event): Buffers {
    if e.Body? && e.kind == TYPE_IMU then b.(imu := e.bytes)
    else if e.Body? && e.kind == TYPE_AHRS then b.(ahrs := e.bytes)
    else b
  }

  function Publish(b: Buffers, e: Event): seq<Message> {
    if e.Ignored? || !e.ok then []
    else [Message(e.kind, e.bytes,
      if e.kind == TYPE_IMU then b.ahrs else if e.kind == TYPE_AHRS then b.imu else [])]
  }

  function PublishAll(b: Buffers, es: seq<Event>): seq<Message>
    decreases |es|
  {
    if es == [] then [] else Publish(b, es[0]) + PublishAll(Fill(b, es[0]), es[1..])
  }

  function FillAll(b: Buffers, es: seq<Event>): Buffers
    decreases |es|
  {
    if es == [] then b else FillAll(Fill(b, es[0]), es[1..])
  }

  datatype LastRead = Nothing | Last(bytes: seq<bv8>, ok: bool)

  /** The latest frame of a kind whose header passed, whether or not its body did. */
  function LastBody(es: seq<Event>, kind: bv8): LastRead {
    if es == [] then Nothing
    else
      var e := es[|es| - 1];
      if e.Body? && e.kind == kind then Last(e.bytes, e.ok) else LastBody(es[..|es| - 1], kind)
  }

  lemma {:induction false} FillAppend(b: Buffers, es: seq<Event>, e: Event)
    ensures FillAll(b, es + [e]) == Fill(FillAll(b, es), e)
    decreases |es|
  {
    if es != [] {
      assert (es + [e])[1..] == es[1..] + [e];
      FillAppend(Fill(b, es[0]), es[1..], e);
    }
  }

  lemma {:induction false} BuffersHoldLastBodies(b: Buffers, es: seq<Event>)
    ensures FillAll(b, es).ahrs == (match LastBody(es, TYPE_AHRS) case Nothing => b.ahrs case Last(bytes, _) => bytes)
    ensures FillAll(b, es).imu == (match LastBody(es, TYPE_IMU) case Nothing => b.imu case Last(bytes, _) => bytes)
    decreases |es|
  {
    if es != [] {
      var a, e := es[..|es| - 1], es[|es| - 1];
      assert es == a + [e];
      FillAppend(b, a, e);
      BuffersHoldLastBodies(b, a);
    }
  }

  lemma {:induction false} PublishAppend(b: Buffers, es: seq<Event>, e: Event)
    ensures PublishAll(b, es + [e]) == PublishAll(b, es) + Publish(FillAll(b, es), e)
    decreases |es|
  {
    if es == [] {
      assert (es + [e])[1..] == [];
    } else {
      assert (es + [e])[1..] == es[1..] + [e];
      PublishAppend(Fill(b, es[0]), es[1..], e);
    }
  }

  /** The orientation that goes out with an accepted IMU frame is the body of the latest
      AHRS frame whose header passed, whether or not that body passed its own tests. */
  lemma OrientationIsLastBody(b: Buffers, es: seq<Event>, e: Event)
    requires e.Body? && e.kind == TYPE_IMU && e.ok
    ensures PublishAll(b, es + [e]) == PublishAll(b, es) + [Message(TYPE_IMU, e.bytes,
      match LastBody(es, TYPE_AHRS) case Nothing => b.ahrs case Last(bytes, _) => bytes)]
  {
    PublishAppend(b, es, e);
    BuffersHoldLastBodies(b, es);
  }

  /** The latest body of a kind that passed its tests. */
  function LastAccepted(es: seq<Event>, kind: bv8, otherwise: seq<bv8>): seq<bv8> {
    if es == [] then otherwise
    else
      var e := es[|es| - 1];
      if e.Body? && e.kind == kind && e.ok then e.bytes else LastAccepted(es[..|es| - 1], kind, otherwise)
  }

  lemma {:induction false} AcceptedOrRejected(es: seq<Event>, kind: bv8, otherwise: seq<bv8>)
    ensures match LastBody(es, kind)
      case Nothing => LastAccepted(es, kind, otherwise) == otherwise
      case Last(bytes, ok) => ok ==> LastAccepted(es, kind, otherwise) == bytes
    decreases |es|
  {
    if es != [] { AcceptedOrRejected(es[..|es| - 1], kind, otherwise); }
  }

  /** The orientation that goes out is that of the latest accepted AHRS body if and only if the
      latest AHRS body at all was accepted, or has the same bytes. */
  lemma OrientationIsAcceptedIff(b: Buffers, es: seq<Event>, e: Event)
    requires e.Body? && e.kind == TYPE_IMU && e.ok
    ensures var accepted := LastAccepted(es, TYPE_AHRS, b.ahrs);
      PublishAll(b, es + [e]) == PublishAll(b, es) + [Message(TYPE_IMU, e.bytes, accepted)]
      <==> (var last := LastBody(es, TYPE_AHRS); last.Nothing? || last.ok || last.bytes == accepted)
  {
    OrientationIsLastBody(b, es, e);
    AcceptedOrRejected(es, TYPE_AHRS, b.ahrs);
    var other := match LastBody(es, TYPE_AHRS) case Nothing => b.ahrs case Last(bytes, _) => bytes;
    var accepted := LastAccepted(es, TYPE_AHRS, b.ahrs);
    var n := |PublishAll(b, es)|;
    assert PublishAll(b, es + [e])[n] == Message(TYPE_IMU, e.bytes, other);
    assert (PublishAll(b, es) + [Message(TYPE_IMU, e.bytes, accepted)])[n].other == accepted;
  }

  /** An AHRS frame with wrong CRC-16 bytes or a wrong end, and then a good IMU frame: the rejected
      body goes out as the orientation of the IMU message, whatever was received before. */
  lemma RejectedBodyIsPublished(b: Buffers, bad: Segment, imu: Segment)
    requires bad.WrongBody? && bad.kind == TYPE_AHRS && bad.Valid() && imu.Good? && imu.kind == TYPE_IMU && imu.Valid()
    ensures var s := bad.Bytes() + imu.Bytes();
      && Events(Parse(s, 0)) == [Body(TYPE_AHRS, bad.sn, bad.payload, false), Body(TYPE_IMU, imu.sn, imu.payload, true)]
      && PublishAll(b, Events(Parse(s, 0))) == [Message(TYPE_IMU, imu.payload, bad.payload)]
  {
    var first, second := Body(TYPE_AHRS, bad.sn, bad.payload, false), Body(TYPE_IMU, imu.sn, imu.payload, true);
    ParseTwo(bad, imu);
    OrientationIsLastBody(b, [first], second);
    assert [first, second] == [first] + [second];
    hide Crc16;
    hide ReadOne;
    assert PublishAll(b, [first]) == [];
  }

  lemma ParseTwo(x: Segment, y: Segment)
    requires x.Valid() && y.Valid()
    ensures Events(Parse(x.Bytes() + y.Bytes(), 0)) == x.Events() + y.Events()
  {
    hide Segment.Bytes;
    hide Segment.Events;
    hide ReadOne;
    hide Parse;
    hide Events;
    hide Remaining;
    assert [x, y][1..] == [y];
    OneSegment(y);
    ParseTransmit([x, y], []);
    assert Transmit([x, y]) + [] == Transmit([x, y]) && Expected([x, y]) + [] == Expected([x, y]);
    NothingLeft(0);
  }

  lemma OneSegment(x: Segment)
    requires x.Valid()
    ensures Transmit([x]) == x.Bytes() && Expected([x]) == x.Events()
  {
    hide Segment.Bytes;
    hide Segment.Events;
    assert [x][1..] == [];
    assert x.Bytes() + [] == x.Bytes() && x.Events() + [] == x.Events();
  }

  lemma NothingLeft(base: nat)
    ensures Events(Parse([], base)) == []
  {}

  /** The bodies that passed all tests. */
  function Accepted(es: seq<Event>): seq<Event>
    decreases |es|
  {
    if es == [] then []
    else
      var last := es[|es| - 1];
      Accepted(es[..|es| - 1]) + (if last.Body? && last.ok then [last] else [])
  }

  /** One message goes out for each accepted body and none for any other, in order, with the bytes
      of that body. */
  lemma {:induction false} MessagesAreAcceptedBodies(b: Buffers, es: seq<Event>)
    ensures |PublishAll(b, es)| == |Accepted(es)|
    ensures forall k :: 0 <= k < |Accepted(es)| ==> Accepted(es)[k].Body?
    ensures forall k :: 0 <= k < |Accepted(es)| ==>
      PublishAll(b, es)[k].kind == Accepted(es)[k].kind && PublishAll(b, es)[k].own == Accepted(es)[k].bytes
    decreases |es|
  {
    if es != [] {
      var front, last := es[..|es| - 1], es[|es| - 1];
      assert es == front + [last];
      MessagesAreAcceptedBodies(b, front);
      PublishAppend(b, front, last);
    }
  }

  /** The magnetic field that goes out with an accepted AHRS frame is from the latest IMU body whose
      header passed. */
  lemma MagneticFieldIsLastBody(b: Buffers, es: seq<Event>, e: Event)
    requires e.Body? && e.kind == TYPE_AHRS && e.ok
    ensures PublishAll(b, es + [e]) == PublishAll(b, es) + [Message(TYPE_AHRS, e.bytes,
      match LastBody(es, TYPE_IMU) case Nothing => b.imu case Last(bytes, _) => bytes)]
  {
    PublishAppend(b, es, e);
    BuffersHoldLastBodies(b, es);
  }

  // ---------------------------------------------------------------------------
  // The driver object

  /** The driver: its serial bookkeeping, one packed buffer per frame type (seven header
      bytes, body, end byte), the bytes its port has yet to deliver, what it published. */
  class Driver {
    var input: seq<bv8>
    var firstSn: bool
    var readSn: int
    var snLost: int
    const imuFrame: array<bv8>
    const ahrsFrame: array<bv8>
    const insgpsFrame: array<bv8>
    const geodeticFrame: array<bv8>
    var published: seq<Message>

    ghost predicate Valid()
      reads this
    {
      && imuFrame.Length == 64 && ahrsFrame.Length == 56
      && insgpsFrame.Length == 80 && geodeticFrame.Length == 40
      && imuFrame != ahrsFrame && imuFrame != insgpsFrame && imuFrame != geodeticFrame
      && ahrsFrame != insgpsFrame && ahrsFrame != geodeticFrame && insgpsFrame != geodeticFrame
    }

    ghost function Frames(): set<object> {
      {imuFrame, ahrsFrame, insgpsFrame, geodeticFrame}
    }

    ghost function Counting(): Count
      reads this
    {
      Count(firstSn, readSn, snLost)
    }

    ghost function Bodies(): Buffers
      requires Valid()
      reads this, imuFrame, ahrsFrame
    {
      Buffers(imuFrame[7..63], ahrsFrame[7..55])
    }

    /** What one pass of the loop does to the driver it found in the given state. */
    ghost predicate Passed(s: seq<bv8>, c: Count, b: Buffers, p: seq<Message>, progress: bool)
      requires Valid()
      reads this, imuFrame, ahrsFrame
    {
      match ReadOne(s)
      case Wait => !progress && input == s && Counting() == c && Bodies() == b && published == p
      case Read(used, es) =>
        && progress
        && input == s[used..]
        && Counting() == TallyAll(c, es)
        && Bodies() == FillAll(b, es)
        && published == p + PublishAll(b, es)
    }

    constructor (port: seq<bv8>)
      ensures Valid() && fresh(Frames())
      ensures input == port && published == [] && Counting() == Count(false, 0, 0)
    {
      input, published := port, [];
      firstSn, readSn, snLost := false, 0, 0;
      imuFrame, ahrsFrame := new bv8[64], new bv8[56];
      insgpsFrame, geodeticFrame := new bv8[80], new bv8[40];
    }

    function FrameOf(kind: bv8): array<bv8>
      requires IsChecked(kind)
    {
      if kind == TYPE_IMU then imuFrame else if kind == TYPE_AHRS then ahrsFrame
      else if kind == TYPE_INSGPS then insgpsFrame else geodeticFrame
    }

    /** The serial-number comparison, eight-bit increment included. */
    method CheckSn(sn: bv8)
      requires Valid()
      modifies this`readSn, this`snLost
      ensures Counting() == Advance(old(Counting()), sn as int)
    {
      readSn := (readSn + 1) % 256;
      if readSn != sn as int {
        if (sn as int) < readSn {
          snLost := snLost + (256 - (readSn - sn as int));
        } else {
          snLost := snLost + (sn as int - readSn);
        }
      }
      readSn := sn as int;
    }

    /** Puts the seven header bytes in place. */
    method StoreHeader(frame: array<bv8>, s: seq<bv8>)
      requires frame.Length >= 7 && |s| >= 7
      modifies frame
      ensures frame[..7] == s[..7] && frame[7..] == old(frame[7..])
    {
      for k := 0 to 7
        invariant frame[..k] == s[..k]
        invariant frame[7..] == old(frame[7..])
      {
        frame[k] := s[k];
      }
    }

    /** Reads body and end byte behind the header. */
    method StoreBody(frame: array<bv8>, s: seq<bv8>)
      requires |s| >= frame.Length >= 7
      modifies frame
      ensures frame[..7] == old(frame[..7]) && frame[7..] == s[7..frame.Length]
    {
      for k := 7 to frame.Length
        invariant frame[..7] == old(frame[..7])
        invariant frame[7..k] == s[7..k]
      {
        frame[k] := s[k];
      }
    }

    /** One pass of the read loop. `progress` is false when a read would have to wait. */
    method ProcessOnce() returns (progress: bool)
      requires Valid()
      modifies this`input, this`firstSn, this`readSn, this`snLost, this`published, Frames()
      ensures Passed(old(input), old(Counting()), old(Bodies()), old(published), progress)
    {
      hide Crc8;
      hide Crc16;
      hide HeadCrc16;
      var s := input;
      if |s| < 1 { return false; }
      if s[0] != FRAME_HEAD { input := s[1..]; return true; }
      if |s| < 2 { return false; }
      var kind := s[1];
      if !IsChecked(kind) && !IsIgnored(kind) && kind != TYPE_FF { input := s[2..]; return true; }
      if |s| < 3 { return false; }
      if IsChecked(kind) && s[2] != LengthByte(kind) { input := s[3..]; return true; }
      if IsIgnored(kind) {
        var all := 8 + s[2] as int;
        if |s| < all { return false; }
        CheckSn(s[3]);
        input := s[all..];
        TallyOne(old(Counting()), old(Bodies()), Ignored(kind, s[3]));
        return true;
      }
      if |s| < 7 { return false; }
      if kind == TYPE_FF { input := s[7..]; return true; }
      progress := ProcessChecked(kind);
    }

    /** Stores the header and tests its CRC-8; the bodies stay. */
    method CheckHeader(kind: bv8, s: seq<bv8>) returns (ok: bool)
      requires Valid() && IsChecked(kind) && |s| >= 7
      modifies Frames()
      ensures FrameOf(kind)[..7] == s[..7]
      ensures ok <==> Crc8(s[..4]) == s[4]
      ensures Bodies() == old(Bodies())
    {
      hide Crc8;
      hide OneWire;
      var frame := FrameOf(kind);
      StoreHeader(frame, s);
      var crc8 := Crc8Table(frame, 0, 4);
      assert frame[0..4] == s[..4] by { assert frame[..7][..4] == frame[0..4]; }
      assert frame[4] == s[4] by { assert frame[..7][4] == frame[4]; }
      ok := crc8 == frame[4];
      assert imuFrame[7..][..56] == imuFrame[7..63] && old(imuFrame[7..][..56]) == old(imuFrame[7..63]);
      assert ahrsFrame[7..][..48] == ahrsFrame[7..55] && old(ahrsFrame[7..][..48]) == old(ahrsFrame[7..55]);
    }

    /** Counts a frame whose header passed; only IMU, AHRS and geodetic frames start the
        count. */
    method CountFrame(kind: bv8, sn: bv8, ghost e: Event)
      requires Valid() && IsChecked(kind) && e.Body? && e.kind == kind && e.sn == sn
      modifies this`firstSn, this`readSn, this`snLost
      ensures Counting() == Tally(old(Counting()), e)
    {
      if kind != TYPE_INSGPS && !firstSn {
        readSn := (sn as int + 255) % 256;
        firstSn := true;
      }
      CheckSn(sn);
    }

    /** Reads the body and tests the CRC-16 and the end byte. */
    method CheckBody(kind: bv8, s: seq<bv8>) returns (ok: bool)
      requires Valid() && IsChecked(kind) && |s| >= 8 + BodyLength(kind)
      requires FrameOf(kind)[..7] == s[..7]
      modifies Frames()
      ensures var n := BodyLength(kind);
        && (ok <==> Crc16(s[7..7 + n]) == HeadCrc16(s[5], s[6]) && s[7 + n] == FRAME_END)
        && Bodies() == Fill(old(Bodies()), Body(kind, s[3], s[7..7 + n], ok))
        && FrameOf(kind)[7..7 + n] == s[7..7 + n]
    {
      hide Crc16;
      hide V41Remainder;
      hide HeadCrc16;
      var n, frame := BodyLength(kind), FrameOf(kind);
      StoreBody(frame, s);
      var crc16 := Crc16Table(frame, 7, n);
      assert frame[7..7 + n] == s[7..7 + n] by {
        assert frame[7..][..n] == frame[7..7 + n] && s[7..frame.Length][..n] == s[7..7 + n];
      }
      assert frame[5] == s[5] && frame[6] == s[6] by {
        assert frame[..7][5] == frame[5] && frame[..7][6] == frame[6];
      }
      assert frame[7 + n] == s[7 + n] by {
        assert frame[7..][n] == frame[7 + n] && s[7..frame.Length][n] == s[7 + n];
      }
      ok := HeadCrc16(frame[5], frame[6]) == crc16 && frame[7 + n] == FRAME_END;
    }

    /** The part of the pass after the length test, for the four checked types. */
    method ProcessChecked(kind: bv8) returns (progress: bool)
      requires Valid() && |input| >= 7 && input[0] == FRAME_HEAD && input[1] == kind
      requires IsChecked(kind) && input[2] == LengthByte(kind)
      modifies this`input, this`firstSn, this`readSn, this`snLost, this`published, Frames()
      ensures Passed(old(input), old(Counting()), old(Bodies()), old(published), progress)
    {
      hide Crc8;
      hide Crc16;
      hide HeadCrc16;
      hide Tally;
      var s, n := input, BodyLength(kind);
      var headerOk := CheckHeader(kind, s);
      if !headerOk { input := s[7..]; return true; }
      if |s| < 8 + n { return false; }
      ghost var e := ReadOne(s).events[0];
      CountFrame(kind, s[3], e);
      var ok := CheckBody(kind, s);
      assert e == Body(kind, s[3], s[7..7 + n], ok);
      input := s[8 + n..];
      if ok {
        var other := if kind == TYPE_IMU then ahrsFrame[7..55] else if kind == TYPE_AHRS then imuFrame[7..63] else [];
        published := published + [Message(kind, FrameOf(kind)[7..7 + n], other)];
      }
      TallyOne(old(Counting()), old(Bodies()), e);
      return true;
    }

    /** The loop, until the port has nothing more to deliver. */
    method ProcessLoop()
      requires Valid()
      modifies this`input, this`firstSn, this`readSn, this`snLost, this`published, Frames()
      ensures Valid()
      ensures input == Remaining(old(input))
      ensures var es := Events(Parse(old(input), 0));
        && Counting() == TallyAll(old(Counting()), es)
        && published == old(published) + PublishAll(old(Bodies()), es)
        && Bodies() == FillAll(old(Bodies()), es)
    {
      hide ReadOne;
      hide Parse;
      hide Events;
      hide Remaining;
      hide TallyAll;
      hide FillAll;
      hide PublishAll;
      ghost var es: seq<Event> := [];
      NothingYet(Counting(), Bodies());
      var progress := true;
      while progress
        invariant Valid()
        invariant es + Events(Parse(input, 0)) == Events(Parse(old(input), 0))
        invariant Remaining(input) == Remaining(old(input))
        invariant !progress ==> ReadOne(input).Wait?
        invariant Counting() == TallyAll(old(Counting()), es)
        invariant published == old(published) + PublishAll(old(Bodies()), es)
        invariant Bodies() == FillAll(old(Bodies()), es)
        decreases |input|, progress
      {
        ghost var before := input;
        progress := ProcessOnce();
        if progress {
          ghost var o := ReadOne(before);
          ParseRest(before);
          TallyConcat(old(Counting()), es, o.events);
          PublishConcat(old(Bodies()), es, o.events);
          es := es + o.events;
        }
      }
      ParseRest(input);
      assert es + [] == es;
    }
  }

  lemma ParseRest(s: seq<bv8>)
    ensures ReadOne(s).Wait? ==> Events(Parse(s, 0)) == [] && Remaining(s) == s
    ensures ReadOne(s).Read? ==> var rest := s[ReadOne(s).used..];
      Events(Parse(s, 0)) == ReadOne(s).events + Events(Parse(rest, 0)) && Remaining(s) == Remaining(rest)
  {
    hide ReadOne;
    if ReadOne(s).Read? {
      EventsOfParse(s, 0);
      ParseShift(s[ReadOne(s).used..], ReadOne(s).used, 0);
    }
  }

  lemma NothingYet(c: Count, b: Buffers)
    ensures TallyAll(c, []) == c && FillAll(b, []) == b && PublishAll(b, []) == []
  {}

  lemma TallyOne(c: Count, b: Buffers, e: Event)
    ensures TallyAll(c, [e]) == Tally(c, e)
    ensures FillAll(b, [e]) == Fill(b, e)
    ensures PublishAll(b, [e]) == Publish(b, e)
  {
    hide Tally;
    assert [e][1..] == [];
  }

  lemma {:induction false} TallyConcat(c: Count, a: seq<Event>, b: seq<Event>)
    ensures TallyAll(c, a + b) == TallyAll(TallyAll(c, a), b)
    decreases |a|
  {
    if a == [] {
      assert a + b == b;
    } else {
      assert (a + b)[1..] == a[1..] + b;
      TallyConcat(Tally(c, a[0]), a[1..], b);
    }
  }

  lemma {:induction false} PublishConcat(b: Buffers, x: seq<Event>, y: seq<Event>)
    ensures FillAll(b, x + y) == FillAll(FillAll(b, x), y)
    ensures PublishAll(b, x + y) == PublishAll(b, x) + PublishAll(FillAll(b, x), y)
    decreases |x|
  {
    if x == [] {
      assert x + y == y;
    } else {
      assert (x + y)[1..] == x[1..] + y;
      PublishConcat(Fill(b, x[0]), x[1..], y);
    }
  }
}
