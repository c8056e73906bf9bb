/** The loops of crc_table.cpp and what their results are worth to a receiver: they equal
    the bit-by-bit registers of the standards, a message followed by its checksum leaves a
    zero register and only then, and short bursts are always seen. */
module Crc {
  import opened CrcTable

  // ---------------------------------------------------------------------------
  // The loops

  method Crc8Table(p: array<bv8>, from: nat, counter: nat) returns (crc8: bv8)
    requires counter < 256 && from + counter <= p.Length
    ensures crc8 == OneWire(0, p[from..from + counter]) == Crc8(p[from..from + counter])
  {
    hide Crc8Entry;
    hide OneWireByte;
    crc8 := 0;
    for i := 0 to counter
      invariant crc8 == Crc8(p[from..from + i])
    {
      var value := p[from + i];
      var newIndex := Xor8(crc8, value);
      crc8 := Crc8Entry(newIndex);
      assert p[from..from + i + 1][..i] == p[from..from + i];
    }
    Crc8IsOneWire(p[from..from + counter]);
  }

  method Crc16Table(p: array<bv8>, from: nat, counter: nat) returns (crc16: bv16)
    requires counter < 256 && from + counter <= p.Length
    ensures crc16 == V41Remainder(p[from..from + counter]) == Crc16(p[from..from + counter])
  {
    hide Crc16Step;
    hide V41Remainder;
    crc16 := 0;
    for i := 0 to counter
      invariant crc16 == Crc16(p[from..from + i])
    {
      var value := p[from + i];
      crc16 := Crc16Step(crc16, value);
      assert p[from..from + i + 1][..i] == p[from..from + i];
    }
    Crc16IsV41Remainder(p[from..from + counter]);
  }

  // ---------------------------------------------------------------------------
  // Laws of the bit operations

  lemma ShlXor(a: bv16, b: bv16)
    ensures (a ^ b) << 1 == (a << 1) ^ (b << 1)
  {}

  lemma TopXor(a: bv16, b: bv16)
    ensures (a ^ b) & 0x8000 != 0 <==> (a & 0x8000 != 0 <==> b & 0x8000 == 0)
  {}

  lemma XorLaws(a: bv16, b: bv16, c: bv16)
    ensures (a ^ c) ^ (b ^ c) == a ^ b
    ensures (a ^ c) ^ b == (a ^ b) ^ c
    ensures a ^ (b ^ c) == (a ^ b) ^ c
  {}

  lemma XorIsZero(a: bv16, b: bv16)
    ensures Xor(a, b) == 0 <==> a == b
  {}

  lemma XorAssociative(a: bv16, b: bv16, c: bv16)
    ensures Xor(Xor(a, b), c) == Xor(a, Xor(b, c))
  {}

  lemma XorCancels(a: bv16, b: bv16, w: bv16)
    ensures Xor(a, w) == Xor(b, w) <==> a == b
    ensures Xor(w, a) == Xor(w, b) <==> a == b
  {}

  lemma Xor8Cancels(a: bv8, b: bv8, w: bv8)
    ensures Xor8(a, w) == Xor8(b, w) <==> a == b
    ensures Xor8(w, a) == Xor8(w, b) <==> a == b
  {}

  lemma JoinIsXor(high: bv8, low: bv8)
    ensures Join(high, low) == Xor(High(high), Low(low))
  {}

  lemma JoinInjective(x: bv8, y: bv8, u: bv8, v: bv8)
    ensures Join(x, y) == Join(u, v) <==> x == u && y == v
  {}

  lemma HighInjective(x: bv8, u: bv8)
    ensures High(x) == High(u) <==> x == u
  {}

  // ---------------------------------------------------------------------------
  // The shift register is linear and loses nothing

  lemma ShiftLinear(a: bv16, b: bv16)
    ensures Shift(Xor(a, b)) == Xor(Shift(a), Shift(b))
  {
    ShlXor(a, b);
    TopXor(a, b);
    XorLaws(a << 1, b << 1, 0x1021);
  }

  /** Eight steps of the register are linear over exclusive or. */
  lemma Shift8Linear(a: bv16, b: bv16)
    ensures Shift8(Xor(a, b)) == Xor(Shift8(a), Shift8(b))
  {
    hide Shift;
    hide Xor;
    var x, y := a, b;
    ShiftLinear(x, y); x, y := Shift(x), Shift(y);
    ShiftLinear(x, y); x, y := Shift(x), Shift(y);
    ShiftLinear(x, y); x, y := Shift(x), Shift(y);
    ShiftLinear(x, y); x, y := Shift(x), Shift(y);
    ShiftLinear(x, y); x, y := Shift(x), Shift(y);
    ShiftLinear(x, y); x, y := Shift(x), Shift(y);
    ShiftLinear(x, y); x, y := Shift(x), Shift(y);
    ShiftLinear(x, y);
  }

  lemma Shift8OfLow(b: bv8)
    ensures Shift8(Low(b)) == High(b)
  {}

  lemma Shift8Kernel(r: bv16)
    ensures Shift8(r) == 0 <==> r == 0
  {}

  lemma Shift8Injective(a: bv16, b: bv16)
    ensures Shift8(a) == Shift8(b) <==> a == b
  {
    hide Shift8;
    hide Xor;
    Shift8Linear(a, b);
    XorIsZero(Shift8(a), Shift8(b));
    Shift8Kernel(Xor(a, b));
    XorIsZero(a, b);
  }

  // ---------------------------------------------------------------------------
  // The table loop as a register fed byte by byte

  function Crc16Byte(crc: bv16, value: bv8): bv16 {
    Shift8(Xor(crc, High(value)))
  }

  /** The register after `q`, starting from the register `crc`. */
  function Crc16From(crc: bv16, q: seq<bv8>): bv16
    decreases |q|
  {
    if q == [] then crc else Crc16From(Crc16Byte(crc, q[0]), q[1..])
  }

  function Rest(crc: bv16): bv8 { (crc & 0xff) as bv8 }

  lemma SplitBits(crc: bv16, w: bv16)
    requires w < 0x100
    ensures crc ^ (w << 8) == ((((crc >> 8) ^ w) & 0xff) << 8) ^ (crc & 0xff)
    ensures crc << 8 == (crc & 0xff) << 8
  {}

  lemma MaskedByte(x: bv16)
    ensures High((x & 0xff) as bv8) == (x & 0xff) << 8 && Low((x & 0xff) as bv8) == x & 0xff
  {}

  lemma LowIsByte(value: bv8)
    ensures value as bv16 < 0x100
  {}

  lemma HighOfIndex(crc: bv16, value: bv8)
    ensures High(Index(crc, value)) == (((crc >> 8) ^ (value as bv16)) & 0xff) << 8
  {
    hide High;
    MaskedByte((crc >> 8) ^ (value as bv16));
  }

  lemma LowOfRest(crc: bv16)
    ensures Low(Rest(crc)) == crc & 0xff && High(Rest(crc)) == (crc & 0xff) << 8
  {
    hide High;
    hide Low;
    MaskedByte(crc);
  }

  lemma XorHigh(crc: bv16, value: bv8)
    ensures Xor(crc, High(value)) == ((((crc >> 8) ^ (value as bv16)) & 0xff) << 8) ^ (crc & 0xff)
    ensures crc << 8 == (crc & 0xff) << 8
  {
    LowIsByte(value);
    SplitBits(crc, value as bv16);
  }

  /** Mixing the message byte into the high byte leaves the low byte as it was. */
  lemma SplitRegister(crc: bv16, value: bv8)
    ensures Xor(crc, High(value)) == Xor(High(Index(crc, value)), Low(Rest(crc)))
    ensures crc << 8 == High(Rest(crc))
  {
    hide Index;
    hide High;
    hide Low;
    hide Rest;
    HighOfIndex(crc, value);
    LowOfRest(crc);
    XorHigh(crc, value);
  }

  lemma TableStepIsByteStep(crc: bv16, value: bv8)
    ensures Crc16Step(crc, value) == Crc16Byte(crc, value)
  {
    hide Crc16Entry;
    hide Shift8;
    hide Index;
    hide Rest;
    hide Low;
    hide High;
    hide Xor;
    SplitRegister(crc, value);
    EntryShifts(Index(crc, value));
    Shift8OfLow(Rest(crc));
    Shift8Linear(High(Index(crc, value)), Low(Rest(crc)));
  }

  lemma EntryShifts(i: bv8)
    ensures Crc16Entry(i) == Shift8(High(i))
  {
    Crc16EntryIsEightShifts(i);
  }

  lemma {:induction false} Crc16Append(p: seq<bv8>, b: bv8)
    ensures Crc16(p + [b]) == Crc16Byte(Crc16(p), b)
  {
    hide Crc16Step;
    hide Crc16Byte;
    assert (p + [b])[..|p|] == p;
    TableStepIsByteStep(Crc16(p), b);
  }

  lemma {:induction false} Crc16Concat(p: seq<bv8>, q: seq<bv8>)
    ensures Crc16(p + q) == Crc16From(Crc16(p), q)
    decreases |q|
  {
    hide Crc16Step;
    hide Crc16Byte;
    if q == [] {
      assert p + q == p;
    } else {
      assert p + q == (p + [q[0]]) + q[1..];
      Crc16Append(p, q[0]);
      Crc16Concat(p + [q[0]], q[1..]);
    }
  }

  // ---------------------------------------------------------------------------
  // CRC-16 is the V.41 remainder

  function Shift16(r: bv16): bv16 { Shift8(Shift8(r)) }

  lemma {:induction false} DivideConcat(reg: bv16, a: seq<bv16>, b: seq<bv16>)
    ensures Divide(reg, a + b) == Divide(Divide(reg, a), b)
    decreases |a|
  {
    hide DivideBit;
    if a == [] {
      assert a + b == b;
    } else {
      assert (a + b)[1..] == a[1..] + b;
      DivideConcat(DivideBit(reg, a[0]), a[1..], b);
    }
  }

  lemma BringDownBit(reg: bv16, bit: bv16)
    requires bit < 2
    ensures (reg << 1) | bit == (reg << 1) ^ bit
    ensures ((reg << 1) | bit) ^ 0x1021 == ((reg << 1) ^ 0x1021) ^ bit
  {}

  lemma DivideBitWhenSet(reg: bv16, bit: bv16)
    requires bit < 2 && reg & 0x8000 != 0
    ensures DivideBit(reg, bit) == Xor(Shift(reg), bit)
  {
    BringDownBit(reg, bit);
  }

  lemma DivideBitWhenClear(reg: bv16, bit: bv16)
    requires bit < 2 && reg & 0x8000 == 0
    ensures DivideBit(reg, bit) == Xor(Shift(reg), bit)
  {
    BringDownBit(reg, bit);
  }

  lemma DivideBitIsShift(reg: bv16, bit: bv16)
    requires bit < 2
    ensures DivideBit(reg, bit) == Xor(Shift(reg), bit)
  {
    hide DivideBit;
    hide Xor;
    hide Shift;
    if reg & 0x8000 == 0 { DivideBitWhenClear(reg, bit); } else { DivideBitWhenSet(reg, bit); }
  }

  lemma ShiftBelow(above: bv16)
    requires above < 0x80
    ensures Shift(above) == above << 1
  {}

  lemma BringDown(w: bv16, k: bv4)
    requires w < 0x100 && k < 8
    ensures From(w, k + 1) < 0x80 && Bit(w, k) < 2
    ensures Xor(From(w, k + 1) << 1, Bit(w, k)) == From(w, k)
  {}

  /** The message bits brought down so far sit below the register untouched. */
  lemma DivideStep(x: bv16, w: bv16, k: bv4)
    requires w < 0x100 && k < 8
    ensures DivideBit(Xor(x, From(w, k + 1)), Bit(w, k)) == Xor(Shift(x), From(w, k))
  {
    hide Xor;
    hide Shift;
    hide From;
    hide Bit;
    hide DivideBit;
    BringDown(w, k);
    DivideBitIsShift(Xor(x, From(w, k + 1)), Bit(w, k));
    ShiftLinear(x, From(w, k + 1));
    ShiftBelow(From(w, k + 1));
    XorAssociative(Shift(x), From(w, k + 1) << 1, Bit(w, k));
  }

  lemma DivideFour(reg: bv16, bits: seq<bv16>)
    requires |bits| >= 4
    ensures Divide(reg, bits) ==
      Divide(DivideBit(DivideBit(DivideBit(DivideBit(reg, bits[0]), bits[1]), bits[2]), bits[3]), bits[4..])
  {
    hide DivideBit;
    var r1 := DivideBit(reg, bits[0]);
    var r2 := DivideBit(r1, bits[1]);
    var r3 := DivideBit(r2, bits[2]);
    assert Divide(reg, bits) == Divide(r1, bits[1..]);
    assert bits[1..][1..] == bits[2..] && Divide(r1, bits[1..]) == Divide(r2, bits[2..]);
    assert bits[2..][1..] == bits[3..] && Divide(r2, bits[2..]) == Divide(r3, bits[3..]);
    assert bits[3..][1..] == bits[4..];
  }

  lemma LowBounds(b: bv8, x: bv16)
    ensures Low(b) < 0x100 && Xor(x, From(Low(b), 8)) == x && From(Low(b), 0) == Low(b)
  {}

  /** Eight message bits enter below the register, so only its own top byte is reduced. */
  lemma DivideByte(reg: bv16, b: bv8)
    ensures Divide(reg, HighFirst(b)) == Xor(Shift8(reg), Low(b))
  {
    hide Xor;
    hide Shift;
    hide From;
    hide Bit;
    hide Low;
    hide DivideBit;
    var w, x := Low(b), reg;
    LowBounds(b, reg);
    DivideStep(x, w, 7); x := Shift(x);
    DivideStep(x, w, 6); x := Shift(x);
    DivideStep(x, w, 5); x := Shift(x);
    DivideStep(x, w, 4); x := Shift(x);
    var bits := HighFirst(b);
    DivideFour(reg, bits);
    DivideFour(Xor(x, From(w, 4)), bits[4..]);
    assert bits[4..][4..] == [];
    DivideStep(x, w, 3); x := Shift(x);
    DivideStep(x, w, 2); x := Shift(x);
    DivideStep(x, w, 1); x := Shift(x);
    DivideStep(x, w, 0);
  }

  lemma FlushByte(reg: bv16, b: bv8)
    ensures Shift16(Divide(reg, HighFirst(b))) == Crc16Byte(Shift16(reg), b)
  {
    hide Xor;
    hide Shift8;
    hide HighFirst;
    DivideByte(reg, b);
    Shift8Linear(Shift8(reg), Low(b));
    Shift8OfLow(b);
  }

  lemma {:induction false} DivideMessage(reg: bv16, p: seq<bv8>)
    ensures Shift16(Divide(reg, MessageBits(p))) == Crc16From(Shift16(reg), p)
    decreases |p|
  {
    hide Shift16;
    hide HighFirst;
    hide Crc16Byte;
    if p != [] {
      DivideConcat(reg, HighFirst(p[0]), MessageBits(p[1..]));
      FlushByte(reg, p[0]);
      DivideMessage(Divide(reg, HighFirst(p[0])), p[1..]);
    }
  }

  lemma DivideZeroByte(reg: bv16)
    ensures Divide(reg, HighFirst(0)) == Shift8(reg)
  {
    hide Shift8;
    hide HighFirst;
    DivideByte(reg, 0);
  }

  /** For every message the table loop yields the remainder of long division. */
  lemma Crc16IsV41Remainder(p: seq<bv8>)
    ensures Crc16(p) == V41Remainder(p)
  {
    hide Shift8;
    hide HighFirst;
    hide Crc16Byte;
    hide Crc16Step;
    var reg := Divide(0, MessageBits(p));
    DivideConcat(0, MessageBits(p), HighFirst(0) + HighFirst(0));
    DivideConcat(reg, HighFirst(0), HighFirst(0));
    DivideZeroByte(reg);
    DivideZeroByte(Shift8(reg));
    DivideMessage(0, p);
    Shift8Kernel(0);
    Crc16Concat([], p);
    assert [] + p == p;
  }

  // ---------------------------------------------------------------------------
  // What a receiver learns from the CRC-16

  lemma TwoByteStep(crc: bv16, high: bv8, low: bv8)
    ensures Crc16Byte(Crc16Byte(crc, high), low) == Shift16(Xor(crc, Join(high, low)))
  {
    hide Xor;
    hide Shift8;
    hide High;
    hide Low;
    hide Join;
    JoinIsXor(high, low);
    XorAssociative(crc, High(high), Low(low));
    Shift8Linear(Xor(crc, High(high)), Low(low));
    Shift8OfLow(low);
  }

  /** Appending two bytes clears the register exactly when they are the checksum, high
      byte first. */
  lemma Crc16SelfCheck(p: seq<bv8>, high: bv8, low: bv8)
    ensures Crc16(p + [high, low]) == 0 <==> Join(high, low) == Crc16(p)
  {
    hide Xor;
    hide Join;
    hide Shift8;
    hide Crc16Byte;
    hide Crc16Step;
    assert p + [high, low] == (p + [high]) + [low];
    Crc16Append(p, high);
    Crc16Append(p + [high], low);
    var crc, word := Crc16(p), Join(high, low);
    TwoByteStep(crc, high, low);
    Shift8Kernel(Shift8(Xor(crc, word)));
    Shift8Kernel(Xor(crc, word));
    XorIsZero(crc, word);
  }

  lemma ByteStepInjective(a: bv16, b: bv16, x: bv8, u: bv8)
    ensures Crc16Byte(a, x) == Crc16Byte(b, x) <==> a == b
    ensures Crc16Byte(a, x) == Crc16Byte(a, u) <==> x == u
  {
    hide Xor;
    hide Shift8;
    hide High;
    Shift8Injective(Xor(a, High(x)), Xor(b, High(x)));
    Shift8Injective(Xor(a, High(x)), Xor(a, High(u)));
    XorCancels(a, b, High(x));
    XorCancels(High(x), High(u), a);
    HighInjective(x, u);
  }

  lemma {:induction false} Crc16FromInjective(a: bv16, b: bv16, q: seq<bv8>)
    ensures Crc16From(a, q) == Crc16From(b, q) <==> a == b
    decreases |q|
  {
    hide Crc16Byte;
    if q != [] {
      Crc16FromInjective(Crc16Byte(a, q[0]), Crc16Byte(b, q[0]), q[1..]);
      ByteStepInjective(a, b, q[0], q[0]);
    }
  }

  lemma Crc16Single(b: bv8)
    ensures Crc16([b]) == Crc16Byte(0, b)
  {
    hide Crc16Byte;
    hide Crc16Step;
    assert [b] == [] + [b];
    Crc16Append([], b);
  }

  lemma Crc16Window(a: seq<bv8>, x: bv8, y: bv8, z: seq<bv8>)
    ensures Crc16((a + [x, y]) + z) == Crc16From(Crc16Byte(Crc16Byte(Crc16(a), x), y), z)
  {
    hide Crc16Byte;
    hide Crc16Step;
    Crc16Concat(a + [x, y], z);
    assert a + [x, y] == (a + [x]) + [y];
    Crc16Append(a, x);
    Crc16Append(a + [x], y);
  }

  lemma Crc16WindowInjective(crc: bv16, x: bv8, y: bv8, u: bv8, v: bv8, z: seq<bv8>)
    ensures Crc16From(Crc16Byte(Crc16Byte(crc, x), y), z) == Crc16From(Crc16Byte(Crc16Byte(crc, u), v), z)
      <==> x == u && y == v
  {
    hide Xor;
    hide Join;
    hide Shift8;
    hide Crc16Byte;
    Crc16FromInjective(Crc16Byte(Crc16Byte(crc, x), y), Crc16Byte(Crc16Byte(crc, u), v), z);
    TwoByteStep(crc, x, y);
    TwoByteStep(crc, u, v);
    var xy, uv := Join(x, y), Join(u, v);
    Shift8Injective(Shift8(Xor(crc, xy)), Shift8(Xor(crc, uv)));
    Shift8Injective(Xor(crc, xy), Xor(crc, uv));
    XorCancels(xy, uv, crc);
    JoinInjective(x, y, u, v);
  }

  lemma Crc16WindowBurst(a: seq<bv8>, x: bv8, y: bv8, u: bv8, v: bv8, z: seq<bv8>)
    ensures Crc16((a + [x, y]) + z) == Crc16((a + [u, v]) + z) <==> x == u && y == v
  {
    hide Crc16Byte;
    hide Crc16From;
    hide Crc16;
    Crc16Window(a, x, y, z);
    Crc16Window(a, u, v, z);
    Crc16WindowInjective(Crc16(a), x, y, u, v, z);
  }

  /** Two messages of the same length that differ only inside the adjacent bytes `i` and
      `i + 1` never have the same checksum. */
  lemma {:induction false} Crc16DetectsTwoByteBurst(p: seq<bv8>, q: seq<bv8>, i: nat)
    requires |p| == |q| && i < |p|
    requires forall k :: 0 <= k < |p| && k != i && k != i + 1 ==> p[k] == q[k]
    requires p != q
    ensures Crc16(p) != Crc16(q)
  {
    hide Crc16Byte;
    hide Crc16;
    if |p| == 1 {
      assert p == [p[0]] && q == [q[0]];
      Crc16Single(p[0]);
      Crc16Single(q[0]);
      ByteStepInjective(0, 0, p[0], q[0]);
    } else {
      var j := if i + 1 < |p| then i else i - 1;
      var a, z := p[..j], p[j + 2..];
      assert p == (a + [p[j], p[j + 1]]) + z;
      assert q == (a + [q[j], q[j + 1]]) + z;
      Crc16WindowBurst(a, p[j], p[j + 1], q[j], q[j + 1], z);
    }
  }

  // ---------------------------------------------------------------------------
  // CRC-8

  lemma OneWireFeed(x: bv8, b: bv8, k: bv4)
    requires k < 8
    ensures OneWireBit(Xor8(x, From8(b, k)), 0) == Xor8(OneWireBit(x, Bit8(b, k)), From8(b, k + 1))
  {
    var rest := b >> k;
    assert ((x ^ rest) ^ 0) & 1 == (x ^ (rest & 1)) & 1;
    assert (x ^ rest) >> 1 == (x >> 1) ^ (rest >> 1);
    assert rest >> 1 == b >> (k + 1);
    Xor8Swap(x >> 1, rest >> 1);
  }

  lemma Xor8Swap(a: bv8, b: bv8)
    ensures (a ^ b) ^ 0x8C == (a ^ 0x8C) ^ b
  {}

  lemma From8Ends(x: bv8, b: bv8)
    ensures From8(b, 0) == b && Xor8(x, From8(b, 8)) == x
  {}

  /** Feeding a byte bit by bit is mixing it in first and then clocking eight times. */
  lemma OneWireByteFolds(crc: bv8, b: bv8)
    ensures OneWireByte(crc, b) == OneWireByte(0, Xor8(crc, b))
  {
    hide OneWireByte;
    hide OneWireBit;
    hide Xor8;
    OneWireByteIsEightClocks(Xor8(crc, b));
    FeedEight(crc, b);
  }

  lemma FeedEight(crc: bv8, b: bv8)
    ensures OneWireByte(crc, b) == OneWireBit(OneWireBit(OneWireBit(OneWireBit(
      OneWireBit(OneWireBit(OneWireBit(OneWireBit(Xor8(crc, b), 0), 0), 0), 0), 0), 0), 0), 0)
  {
    hide Xor8;
    hide From8;
    hide Bit8;
    hide OneWireBit;
    var x := crc;
    From8Ends(x, b);
    OneWireFeed(x, b, 0); x := OneWireBit(x, Bit8(b, 0));
    OneWireFeed(x, b, 1); x := OneWireBit(x, Bit8(b, 1));
    OneWireFeed(x, b, 2); x := OneWireBit(x, Bit8(b, 2));
    OneWireFeed(x, b, 3); x := OneWireBit(x, Bit8(b, 3));
    OneWireFeed(x, b, 4); x := OneWireBit(x, Bit8(b, 4));
    OneWireFeed(x, b, 5); x := OneWireBit(x, Bit8(b, 5));
    OneWireFeed(x, b, 6); x := OneWireBit(x, Bit8(b, 6));
    OneWireFeed(x, b, 7); x := OneWireBit(x, Bit8(b, 7));
    From8Ends(x, b);
  }

  lemma OneWireBitInjective(a: bv8, b: bv8)
    ensures OneWireBit(a, 0) == OneWireBit(b, 0) <==> a == b
  {}

  /** A zero byte clocks the register eight times without feeding it. */
  lemma OneWireByteIsEightClocks(a: bv8)
    ensures OneWireByte(0, a) == OneWireBit(OneWireBit(OneWireBit(OneWireBit(
      OneWireBit(OneWireBit(OneWireBit(OneWireBit(a, 0), 0), 0), 0), 0), 0), 0), 0)
  {}

  lemma OneWireByteInjective(a: bv8, b: bv8)
    ensures OneWireByte(0, a) == OneWireByte(0, b) <==> a == b
  {
    hide OneWireByte;
    hide OneWireBit;
    hide Xor8;
    OneWireByteIsEightClocks(a);
    OneWireByteIsEightClocks(b);
    var x, y := a, b;
    OneWireBitInjective(x, y); x, y := OneWireBit(x, 0), OneWireBit(y, 0);
    OneWireBitInjective(x, y); x, y := OneWireBit(x, 0), OneWireBit(y, 0);
    OneWireBitInjective(x, y); x, y := OneWireBit(x, 0), OneWireBit(y, 0);
    OneWireBitInjective(x, y); x, y := OneWireBit(x, 0), OneWireBit(y, 0);
    OneWireBitInjective(x, y); x, y := OneWireBit(x, 0), OneWireBit(y, 0);
    OneWireBitInjective(x, y); x, y := OneWireBit(x, 0), OneWireBit(y, 0);
    OneWireBitInjective(x, y); x, y := OneWireBit(x, 0), OneWireBit(y, 0);
    OneWireBitInjective(x, y);
  }

  lemma {:induction false} OneWireConcat(reg: bv8, p: seq<bv8>, q: seq<bv8>)
    ensures OneWire(reg, p + q) == OneWire(OneWire(reg, p), q)
    decreases |p|
  {
    hide OneWireByte;
    if p == [] {
      assert p + q == q;
    } else {
      assert (p + q)[1..] == p[1..] + q;
      OneWireConcat(OneWireByte(reg, p[0]), p[1..], q);
    }
  }

  lemma OneWireOne(reg: bv8, b: bv8, q: seq<bv8>)
    ensures OneWire(reg, [b] + q) == OneWire(OneWireByte(reg, b), q)
  {
    hide OneWireByte;
    assert ([b] + q)[1..] == q;
  }

  /** For every message the CRC-8 table loop yields the 1-Wire register. */
  lemma {:induction false} Crc8IsOneWire(p: seq<bv8>)
    ensures Crc8(p) == OneWire(0, p)
  {
    hide OneWireByte;
    hide Crc8Entry;
    hide Xor8;
    if p != [] {
      var a, b := p[..|p| - 1], p[|p| - 1];
      assert p == a + [b] && [b] == [b] + [];
      Crc8IsOneWire(a);
      OneWireConcat(0, a, [b]);
      OneWireOne(Crc8(a), b, []);
      Crc8EntryIsOneWire(Xor8(Crc8(a), b));
      OneWireByteFolds(Crc8(a), b);
    }
  }

  lemma OneWireByteCancels(a: bv8, b: bv8, x: bv8, u: bv8)
    ensures OneWireByte(a, x) == OneWireByte(b, x) <==> a == b
    ensures OneWireByte(a, x) == OneWireByte(a, u) <==> x == u
  {
    hide OneWireByte;
    hide Xor8;
    OneWireByteFolds(a, x);
    OneWireByteFolds(b, x);
    OneWireByteFolds(a, u);
    OneWireByteInjective(Xor8(a, x), Xor8(b, x));
    OneWireByteInjective(Xor8(a, x), Xor8(a, u));
    Xor8Cancels(a, b, x);
    Xor8Cancels(x, u, a);
  }

  lemma {:induction false} OneWireInjective(a: bv8, b: bv8, q: seq<bv8>)
    ensures OneWire(a, q) == OneWire(b, q) <==> a == b
    decreases |q|
  {
    hide OneWireByte;
    if q != [] {
      OneWireInjective(OneWireByte(a, q[0]), OneWireByte(b, q[0]), q[1..]);
      OneWireByteCancels(a, b, q[0], q[0]);
    }
  }

  /** Changing one byte of the header always changes its checksum. */
  lemma {:induction false} Crc8DetectsByteError(p: seq<bv8>, i: nat, b: bv8)
    requires i < |p|
    ensures Crc8(p[i := b]) == Crc8(p) <==> p[i] == b
  {
    hide OneWireByte;
    hide Crc8;
    var q, z := p[i := b], p[i + 1..];
    Crc8IsOneWire(p);
    Crc8IsOneWire(q);
    var reg := OneWire(0, p[..i]);
    assert p == p[..i] + ([p[i]] + z) && q == p[..i] + ([b] + z);
    OneWireConcat(0, p[..i], [p[i]] + z);
    OneWireConcat(0, p[..i], [b] + z);
    OneWireOne(reg, p[i], z);
    OneWireOne(reg, b, z);
    OneWireInjective(OneWireByte(reg, p[i]), OneWireByte(reg, b), z);
    OneWireByteCancels(reg, reg, p[i], b);
  }
}
