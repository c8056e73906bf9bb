/** The chassis frames of wtb_car.cpp: gear, speed and steering angle in fields that straddle
    nibbles, a rolling counter, and a check byte. Machine words appear as the integers they hold;
    a nibble of a negative integer is that of its two's complement. */
module ChassisCan {
  import opened Basics

  datatype Gear = Disable | Park | Reverse | Neutral | Drive | Unknown(code: bv8)

  /** The code of a gear; a name the table does not have gets code 0. */
  function GearCode(g: Gear): bv8 {
    match g
    case Disable => 0
    case Park => 1
    case Reverse => 2
    case Neutral => 3
    case Drive => 4
    case Unknown(_) => 0
  }

  function GearOf(code: bv8): Gear {
    if code == 0 then Disable
    else if code == 1 then Park
    else if code == 2 then Reverse
    else if code == 3 then Neutral
    else if code == 4 then Drive
    else Unknown(code)
  }

  // ---------------------------------------------------------------------------
  // Nibbles

  /** Nibble `k` of a word, the lowest first. */
  function Nibble(x: int, k: nat): bv8
    decreases k
  {
    if k == 0 then (x % 16) as bv8 else Nibble(x / 16, k - 1)
  }

  function Pair(high: bv8, low: bv8): bv8 { (high << 4) | low }

  function High(b: bv8): bv8 { b >> 4 }

  function Low(b: bv8): bv8 { b & 0xF }

  /** The number with these nibbles, the lowest first. */
  function Value(n0: bv8, n1: bv8, n2: bv8, n3: bv8): nat {
    n3 as int * 4096 + n2 as int * 256 + n1 as int * 16 + n0 as int
  }

  lemma PairBack(high: bv8, low: bv8)
    requires high < 16 && low < 16
    ensures High(Pair(high, low)) == high && Low(Pair(high, low)) == low
  {}

  lemma SmallByte(n: int)
    requires 0 <= n < 16
    ensures (n as bv8) as int == n
  {}

  lemma SmallByteIsNibble(n: int)
    requires 0 <= n < 16
    ensures n as bv8 < 16
  {}

  lemma NibbleIs(x: int)
    ensures Nibble(x, 0) as int == x % 16 && Nibble(x, 0) < 16
  {
    SmallByte(x % 16);
    SmallByteIsNibble(x % 16);
  }

  lemma {:induction false} NibbleIsSmall(x: int, k: nat)
    ensures Nibble(x, k) < 16
    decreases k
  {
    if k == 0 { NibbleIs(x); } else { NibbleIsSmall(x / 16, k - 1); }
  }

  lemma ModuloUnique(x: int, q: int, r: int)
    requires x == q * 0x10000 + r && 0 <= r < 0x10000
    ensures x % 0x10000 == r
  {}

  lemma FourDigits(x: int, q1: int, q2: int, q3: int)
    requires q1 == x / 16 && q2 == q1 / 16 && q3 == q2 / 16
    ensures q3 % 16 * 4096 + q2 % 16 * 256 + q1 % 16 * 16 + x % 16 == x % 0x10000
  {
    ModuloUnique(x, q3 / 16, q3 % 16 * 4096 + q2 % 16 * 256 + q1 % 16 * 16 + x % 16);
  }

  lemma NibblesOf(x: int, q1: int, q2: int, q3: int)
    requires q1 == x / 16 && q2 == q1 / 16 && q3 == q2 / 16
    ensures Nibble(x, 1) == Nibble(q1, 0) && Nibble(x, 2) == Nibble(q2, 0) && Nibble(x, 3) == Nibble(q3, 0)
  {
    assert Nibble(x, 3) == Nibble(q1, 2);
  }

  /** Four nibbles of a word are its low sixteen bits. */
  lemma ValueOfNibbles(x: int)
    ensures Value(Nibble(x, 0), Nibble(x, 1), Nibble(x, 2), Nibble(x, 3)) == x % 0x10000
  {
    hide Nibble;
    var q1 := x / 16;
    var q2 := q1 / 16;
    var q3 := q2 / 16;
    FourDigits(x, q1, q2, q3);
    NibblesOf(x, q1, q2, q3);
    NibbleIs(x);
    NibbleIs(q1);
    NibbleIs(q2);
    NibbleIs(q3);
  }

  // ---------------------------------------------------------------------------
  // A frame

  function Xor(a: bv8, b: bv8): bv8 { a ^ b }

  function Check(b0: bv8, b1: bv8, b2: bv8, b3: bv8, b4: bv8, b5: bv8, b6: bv8): bv8 {
    Xor(Xor(Xor(Xor(Xor(Xor(b0, b1), b2), b3), b4), b5), b6)
  }

  /** The exclusive or of all bytes. */
  function Parity(d: seq<bv8>): bv8 {
    if d == [] then 0 else Xor(Parity(d[..|d| - 1]), d[|d| - 1])
  }

  /** The frame for raw speed `s` in mm/s and raw angle `a` in hundredths of a degree. */
  function Data(gear: Gear, s: int, a: int, counter: nat): (d: seq<bv8>)
    ensures |d| == 8
  {
    var b0, b1 := Pair(Nibble(s, 0), GearCode(gear)), Pair(Nibble(s, 2), Nibble(s, 1));
    var b2, b3 := Pair(Nibble(a, 0), Nibble(s, 3)), Pair(Nibble(a, 2), Nibble(a, 1));
    var b4, b6 := Nibble(a, 3), Pair(Nibble(counter, 0), 0);
    [b0, b1, b2, b3, b4, 0, b6, Check(b0, b1, b2, b3, b4, 0, b6)]
  }

  function RawSpeed(d: seq<bv8>): nat
    requires |d| == 8
  {
    Value(High(d[0]), Low(d[1]), High(d[1]), Low(d[2]))
  }

  /** The sixteen angle bits, read as a signed number. */
  function RawAngle(d: seq<bv8>): int
    requires |d| == 8
  {
    Signed(Value(High(d[2]), Low(d[3]), High(d[3]), Low(d[4])))
  }

  function Signed(x: int): int { if x >= 0x8000 then x - 0x10000 else x }

  datatype Feedback = Feedback(gear: Gear, speed: real, angle: real)

  function Parse(d: seq<bv8>): Feedback
    requires |d| == 8
  {
    Feedback(GearOf(Low(d[0])), RawSpeed(d) as real * 0.001, RawAngle(d) as real * 0.01)
  }

  lemma LowOfNibble(n: bv8)
    requires n < 16
    ensures Low(n) == n
  {}

  lemma GearCodeIsSmall(g: Gear)
    ensures GearCode(g) < 16
  {}

  /** What a frame carries: the gear, sixteen bits of speed, sixteen bits of angle read as a signed
      number, and four bits of the counter. */
  lemma {:induction false} FieldsBack(gear: Gear, s: int, a: int, counter: nat)
    ensures var d := Data(gear, s, a, counter);
      && Low(d[0]) == GearCode(gear) && RawSpeed(d) == s % 0x10000 && RawAngle(d) == Signed(a % 0x10000)
      && High(d[6]) as int == counter % 16
  {
    hide Nibble;
    hide GearCode;
    NibbleIsSmall(s, 0);
    NibbleIsSmall(s, 1);
    NibbleIsSmall(s, 2);
    NibbleIsSmall(s, 3);
    NibbleIsSmall(a, 0);
    NibbleIsSmall(a, 1);
    NibbleIsSmall(a, 2);
    NibbleIsSmall(a, 3);
    NibbleIs(counter);
    ValueOfNibbles(s);
    ValueOfNibbles(a);
    GearCodeIsSmall(gear);
    PairBack(Nibble(s, 0), GearCode(gear));
    PairBack(Nibble(s, 2), Nibble(s, 1));
    PairBack(Nibble(a, 0), Nibble(s, 3));
    PairBack(Nibble(a, 2), Nibble(a, 1));
    PairBack(Nibble(counter, 0), 0);
    LowOfNibble(Nibble(a, 3));
    hide Pair;
    hide High;
    hide Low;
    hide Value;
    hide Check;
  }

  /** Parsing inverts building for all five gears, exactly for the speeds of sixteen bits and the
      angles of sixteen signed bits. */
  lemma {:induction false} ParseInvertsBuild(gear: Gear, s: int, a: int, counter: nat)
    ensures var d := Data(gear, s, a, counter);
      && Parse(d).gear == (if gear.Unknown? then Disable else gear)
      && (RawSpeed(d) == s <==> 0 <= s < 0x10000)
      && (RawAngle(d) == a <==> -0x8000 <= a < 0x8000)
      && Parse(d).speed == RawSpeed(d) as real * 0.001 && Parse(d).angle == RawAngle(d) as real * 0.01
  {
    FieldsBack(gear, s, a, counter);
    var d := Data(gear, s, a, counter);
    hide Data;
    hide RawSpeed;
    hide RawAngle;
    hide Low;
    if -0x8000 <= a < 0 { ModuloUnique(a, -1, a + 0x10000); }
  }

  /** The bytes as one number, the first byte lowest. */
  function LittleEndian(d: seq<bv8>): nat {
    if d == [] then 0 else d[0] as int + 256 * LittleEndian(d[1..])
  }

  lemma PairIs(high: bv8, low: bv8)
    requires high < 16 && low < 16
    ensures Pair(high, low) as int == 16 * high as int + low as int
  {
    assert Pair(high, low) == 16 * high + low;
  }

  lemma {:induction false} SevenBytes(d: seq<bv8>)
    requires |d| == 7
    ensures LittleEndian(d) == d[0] as int + 0x100 * d[1] as int + 0x1_0000 * d[2] as int + 0x100_0000 * d[3] as int
      + 0x1_0000_0000 * d[4] as int + 0x100_0000_0000 * d[5] as int + 0x1_0000_0000_0000 * d[6] as int
  {
    assert d[1..][1..] == d[2..] && d[2..][1..] == d[3..] && d[3..][1..] == d[4..];
    assert d[4..][1..] == d[5..] && d[5..][1..] == d[6..] && d[6..][1..] == [];
    assert LittleEndian(d[6..]) == d[6] as int;
    assert LittleEndian(d[4..]) == d[4] as int + 0x100 * d[5] as int + 0x1_0000 * d[6] as int;
    assert LittleEndian(d[2..]) == d[2] as int + 0x100 * d[3] as int + 0x1_0000 * LittleEndian(d[4..]);
  }

  lemma FourNibbles(x: int)
    ensures Nibble(x, 0) as int + 16 * Nibble(x, 1) as int + 256 * Nibble(x, 2) as int + 4096 * Nibble(x, 3) as int
         == x % 0x10000
  {
    ValueOfNibbles(x);
    hide Nibble;
  }

  /** The layout of a frame up to the check byte: the gear from bit 0, sixteen bits of speed from bit 4,
      sixteen bits of angle from bit 20, the counter from bit 52, and zeros elsewhere. */
  lemma FrameLayout(gear: Gear, s: int, a: int, counter: nat)
    ensures LittleEndian(Data(gear, s, a, counter)[..7])
         == GearCode(gear) as int + 0x10 * (s % 0x10000) + 0x10_0000 * (a % 0x10000) + 0x10_0000_0000_0000 * (counter % 16)
  {
    hide Nibble;
    hide GearCode;
    hide Pair;
    hide Check;
    hide LittleEndian;
    var d := Data(gear, s, a, counter);
    SevenBytes(d[..7]);
    NibbleIsSmall(s, 0);
    NibbleIsSmall(s, 1);
    NibbleIsSmall(s, 2);
    NibbleIsSmall(s, 3);
    NibbleIsSmall(a, 0);
    NibbleIsSmall(a, 1);
    NibbleIsSmall(a, 2);
    NibbleIs(counter);
    GearCodeIsSmall(gear);
    PairIs(Nibble(s, 0), GearCode(gear));
    PairIs(Nibble(s, 2), Nibble(s, 1));
    PairIs(Nibble(a, 0), Nibble(s, 3));
    PairIs(Nibble(a, 2), Nibble(a, 1));
    PairIs(Nibble(counter, 0), 0);
    FourNibbles(s);
    FourNibbles(a);
  }

  lemma XorLaws(a: bv8, b: bv8, c: bv8)
    ensures Xor(a, a) == 0 && Xor(a, 0) == a && Xor(0, a) == a
    ensures Xor(Xor(a, b), c) == Xor(Xor(a, c), b) && Xor(Xor(a, b), b) == a
    ensures Xor(a, b) == 0 <==> a == b
  {}

  lemma CheckIsParity(d: seq<bv8>)
    requires |d| == 7
    ensures Check(d[0], d[1], d[2], d[3], d[4], d[5], d[6]) == Parity(d)
  {
    hide Xor;
    assert d[..6][..5] == d[..5] && d[..5][..4] == d[..4] && d[..4][..3] == d[..3];
    assert d[..3][..2] == d[..2] && d[..2][..1] == d[..1] && d[..1][..0] == [];
    assert Parity(d[..1]) == d[0] by { XorLaws(d[0], 0, 0); }
    assert Parity(d[..3]) == Xor(Xor(d[0], d[1]), d[2]);
    assert Parity(d[..5]) == Xor(Xor(Parity(d[..3]), d[3]), d[4]);
  }

  /** All eight bytes of a frame cancel. */
  lemma FrameCancels(gear: Gear, s: int, a: int, counter: nat)
    ensures Parity(Data(gear, s, a, counter)) == 0
  {
    var d := Data(gear, s, a, counter);
    hide Nibble;
    hide Pair;
    hide GearCode;
    assert d[7] == Check(d[0], d[1], d[2], d[3], d[4], d[5], d[6]);
    hide Check;
    CheckIsParity(d[..7]);
    XorLaws(d[7], 0, 0);
    hide Xor;
    hide Data;
  }

  lemma {:induction false} ChangedParity(d: seq<bv8>, i: nat, b: bv8)
    requires i < |d|
    ensures Xor(Parity(d[i := b]), b) == Xor(Parity(d), d[i])
    decreases |d|
  {
    hide Xor;
    var front, last := d[..|d| - 1], d[|d| - 1];
    if i == |d| - 1 {
      assert d[i := b][..|d| - 1] == front;
      XorLaws(Parity(front), b, 0);
      XorLaws(Parity(front), last, 0);
    } else {
      assert d[i := b][..|d| - 1] == front[i := b];
      ChangedParity(front, i, b);
      XorLaws(Parity(front[i := b]), last, b);
      XorLaws(Parity(front), last, d[i]);
    }
  }

  /** A frame with one byte replaced cancels only if nothing changed. */
  lemma ChangedByteShows(d: seq<bv8>, i: nat, b: bv8)
    requires i < |d| && Parity(d) == 0
    ensures Parity(d[i := b]) == 0 <==> b == d[i]
  {
    ChangedParity(d, i, b);
    XorLaws(b, d[i], 0);
    XorLaws(d[i], b, 0);
    XorLaws(Parity(d[i := b]), b, 0);
    hide Xor;
    hide Parity;
  }

  // ---------------------------------------------------------------------------
  // Commands

  const PI: real := 3.14159265358979323846

  datatype Command = Command(speed: real, angle: real)

  /** Whole degrees. */
  function Degrees(angle: real): int { Truncate(angle * 180.0 / PI) }

  /** Whole degrees toward zero: half a turn is pi, and what is dropped is less than a degree. */
  lemma DegreesMeaning(angle: real)
    ensures var d := Degrees(angle) as real;
      if angle >= 0.0 then d * PI <= angle * 180.0 < (d + 1.0) * PI else (d - 1.0) * PI < angle * 180.0 <= d * PI
  {
    var x := angle * 180.0 / PI;
    assert x * PI == angle * 180.0;
    var d := Truncate(x) as real;
    if angle >= 0.0 {
      assert x >= 0.0 && d <= x < d + 1.0;
      Times(d, x, PI);
      TimesStrict(x, d + 1.0, PI);
    } else {
      assert x <= 0.0 && d - 1.0 < x <= d;
      Times(x, d, PI);
      TimesStrict(d - 1.0, x, PI);
    }
  }

  lemma Times(a: real, b: real, c: real)
    requires a <= b && c > 0.0
    ensures a * c <= b * c
  {}

  lemma TimesStrict(a: real, b: real, c: real)
    requires a < b && c > 0.0
    ensures a * c < b * c
  {}

  /** Backing up means gear R, with speed and angle negated. */
  function FrameOf(c: Command, counter: nat): seq<bv8> {
    if c.speed < 0.0 then Data(Reverse, Truncate(-c.speed * 1000.0), Truncate((-Degrees(c.angle)) as real / 0.01), counter)
    else Data(Drive, Truncate(c.speed * 1000.0), Truncate(Degrees(c.angle) as real / 0.01), counter)
  }

  /** The next `k` frames of a command, `n` having gone before. */
  function Copies(c: Command, n: nat, k: nat): (fs: seq<seq<bv8>>)
    ensures |fs| == k
    decreases k
  {
    if k == 0 then [] else Copies(c, n, k - 1) + [FrameOf(c, (n + k - 1) % 16)]
  }

  /** All frames of a run: three for each command, the counter running on. */
  function Frames(commands: seq<Command>): (fs: seq<seq<bv8>>)
    ensures |fs| == 3 * |commands|
    decreases |commands|
  {
    if commands == [] then []
    else
      var front := Frames(commands[..|commands| - 1]);
      front + Copies(commands[|commands| - 1], |front|, 3)
  }

  lemma {:induction false} CopyIs(c: Command, n: nat, k: nat, i: nat)
    requires i < k
    ensures Copies(c, n, k)[i] == FrameOf(c, (n + i) % 16)
    decreases k
  {
    hide FrameOf;
    if i < k - 1 { CopyIs(c, n, k - 1, i); }
  }

  lemma {:induction false} FrameAt(commands: seq<Command>, n: nat)
    requires n < 3 * |commands|
    ensures Frames(commands)[n] == FrameOf(commands[n / 3], n % 16)
    decreases |commands|
  {
    hide FrameOf;
    var front, c := commands[..|commands| - 1], commands[|commands| - 1];
    if n < 3 * |front| {
      FrameAt(front, n);
      assert n / 3 < |front| && front[n / 3] == commands[n / 3];
    } else {
      assert n / 3 == |front|;
      CopyIs(c, 3 * |front|, 3, n - 3 * |front|);
    }
    hide Copies;
  }

  /** Over any run, frame `n` is of command `n / 3`, carries `n` modulo 16, and cancels. */
  lemma {:induction false} EveryFrame(commands: seq<Command>, n: nat)
    requires n < 3 * |commands|
    ensures var d := Frames(commands)[n];
      && d == FrameOf(commands[n / 3], n % 16)
      && |d| == 8 && High(d[6]) as int == n % 16 && Parity(d) == 0
  {
    hide FrameOf;
    hide High;
    hide Parity;
    hide Frames;
    FrameAt(commands, n);
    FrameIs(commands[n / 3], n % 16);
  }

  lemma FrameIs(c: Command, counter: nat)
    requires counter < 16
    ensures var d := FrameOf(c, counter);
      |d| == 8 && High(d[6]) as int == counter && Parity(d) == 0
  {
    hide Data;
    hide High;
    hide Parity;
    hide Degrees;
    hide Truncate;
    var gear := if c.speed < 0.0 then Reverse else Drive;
    var s := Truncate((if c.speed < 0.0 then -c.speed else c.speed) * 1000.0);
    var a := Truncate((if c.speed < 0.0 then -Degrees(c.angle) else Degrees(c.angle)) as real / 0.01);
    FieldsBack(gear, s, a, counter);
    FrameCancels(gear, s, a, counter);
  }

  /** On the bus a command is gear D or, to back up, R; its speed in mm/s without the sign; its whole
      degrees in hundredths, negated to back up; and the counter. The eighth byte cancels the others. */
  lemma CommandLayout(c: Command, counter: nat)
    requires counter < 16
    ensures var d := FrameOf(c, counter);
      && |d| == 8 && Parity(d) == 0
      && LittleEndian(d[..7]) ==
           (if c.speed < 0.0 then 2 else 4)
           + 0x10 * (Truncate((if c.speed < 0.0 then -c.speed else c.speed) * 1000.0) % 0x10000)
           + 0x10_0000 * (100 * (if c.speed < 0.0 then -Degrees(c.angle) else Degrees(c.angle)) % 0x10000)
           + 0x10_0000_0000_0000 * counter
  {
    hide Data;
    hide Truncate;
    hide Degrees;
    hide Parity;
    hide LittleEndian;
    FrameOfIs(c, counter);
    FrameIs(c, counter);
    var s := Truncate((if c.speed < 0.0 then -c.speed else c.speed) * 1000.0);
    var a := 100 * (if c.speed < 0.0 then -Degrees(c.angle) else Degrees(c.angle));
    FrameLayout(if c.speed < 0.0 then Reverse else Drive, s, a, counter);
    hide FrameOf;
  }

  /** What the node makes of a received frame: gear R negates the speed. */
  function Received(d: seq<bv8>): (real, real)
    requires |d| == 8
  {
    var p := Parse(d);
    (if p.gear == Reverse then -p.speed else p.speed, p.angle)
  }

  lemma WholeOverHundredth(n: int)
    ensures Truncate(n as real / 0.01) == 100 * n
  {
    assert n as real / 0.01 == (100 * n) as real;
  }

  lemma SpeedFits(speed: real)
    requires -65.536 < speed < 65.536
    ensures var s := Truncate((if speed < 0.0 then -speed else speed) * 1000.0);
      0 <= s < 0x10000 && Truncate(speed * 1000.0) == if speed < 0.0 then -s else s
  {}

  lemma FrameOfIs(c: Command, counter: nat)
    ensures FrameOf(c, counter) == Data(
              if c.speed < 0.0 then Reverse else Drive,
              Truncate((if c.speed < 0.0 then -c.speed else c.speed) * 1000.0),
              100 * (if c.speed < 0.0 then -Degrees(c.angle) else Degrees(c.angle)), counter)
  {
    WholeOverHundredth(if c.speed < 0.0 then -Degrees(c.angle) else Degrees(c.angle));
    hide Data;
    hide Truncate;
    hide Degrees;
  }

  /** A command read back from its own frame: the speed to the millimetre per second, with its
      sign; the angle in whole degrees, negated for a command to back up. */
  lemma {:induction false} CommandReadsBack(c: Command, counter: nat)
    requires -65.536 < c.speed < 65.536 && -327 <= Degrees(c.angle) <= 327
    ensures var r := Received(FrameOf(c, counter));
      && r.0 == Truncate(c.speed * 1000.0) as real * 0.001
      && r.1 == (if c.speed < 0.0 then -Degrees(c.angle) else Degrees(c.angle)) as real
  {
    hide Degrees;
    hide Truncate;
    hide FrameOf;
    hide Data;
    hide Parse;
    hide RawSpeed;
    hide RawAngle;
    var degrees := if c.speed < 0.0 then -Degrees(c.angle) else Degrees(c.angle);
    var gear := if c.speed < 0.0 then Reverse else Drive;
    var s := Truncate((if c.speed < 0.0 then -c.speed else c.speed) * 1000.0);
    SpeedFits(c.speed);
    FrameOfIs(c, counter);
    ParseInvertsBuild(gear, s, 100 * degrees, counter);
    Scaled(s, degrees);
  }

  lemma Scaled(s: int, degrees: int)
    ensures -(s as real * 0.001) == (-s) as real * 0.001 && (100 * degrees) as real * 0.01 == degrees as real
  {}

  // ---------------------------------------------------------------------------
  // The node as an object

  lemma FramesAppend(commands: seq<Command>, c: Command)
    ensures Frames(commands + [c]) == Frames(commands) + Copies(c, |Frames(commands)|, 3)
  {
    hide Copies;
    assert (commands + [c])[..|commands|] == commands;
  }

  lemma SendIs(c: Command, counter: nat)
    ensures FrameOf(c, counter) == Data(
              if c.speed < 0.0 then Reverse else Drive,
              Truncate((if c.speed < 0.0 then -c.speed else c.speed) * 1000.0),
              Truncate((if c.speed < 0.0 then -Degrees(c.angle) else Degrees(c.angle)) as real / 0.01), counter)
  {
    hide Data;
    hide Truncate;
    hide Degrees;
  }

  lemma NextCounter(n: nat)
    ensures (n % 16 + 1) % 16 == (n + 1) % 16
  {}

  class WtbCar {
    var aliveCounter: nat
    var published: seq<seq<bv8>>
    ghost var commands: seq<Command>

    ghost predicate Valid()
      reads this
    {
      aliveCounter == |published| % 16 && published == Frames(commands)
    }

    constructor ()
      ensures Valid() && commands == [] && published == []
    {
      aliveCounter, published, commands := 0, [], [];
    }

    /** The frame is filled byte by byte; the counter moves on. */
    method BuildCtrlCmdData(gear: Gear, speed: real, angle: real) returns (frame: seq<bv8>)
      modifies this`aliveCounter
      ensures frame == Data(gear, Truncate(speed * 1000.0), Truncate(angle / 0.01), old(aliveCounter))
      ensures aliveCounter == (old(aliveCounter) + 1) % 16
    {
      hide Truncate;
      hide Nibble;
      hide Pair;
      hide GearCode;
      hide Check;
      var data := new bv8[8](_ => 0);
      var speedInt := Truncate(speed * 1000.0);
      data[0] := Pair(Nibble(speedInt, 0), GearCode(gear));
      data[1] := Pair(Nibble(speedInt, 2), Nibble(speedInt, 1));
      data[2] := Nibble(speedInt, 3);
      var steerAngleInt := Truncate(angle / 0.01);
      data[2] := Pair(Nibble(steerAngleInt, 0), data[2]);
      data[3] := Pair(Nibble(steerAngleInt, 2), Nibble(steerAngleInt, 1));
      data[4] := Nibble(steerAngleInt, 3);
      data[6] := Pair(Nibble(aliveCounter, 0), 0);
      aliveCounter := (aliveCounter + 1) % 16;
      data[7] := Check(data[0], data[1], data[2], data[3], data[4], data[5], data[6]);
      frame := data[..];
    }

    method SendSpeedToAKM(lineSpeed: real, angle: real)
      requires Valid()
      modifies this
      ensures Valid() && commands == old(commands) + [Command(lineSpeed, angle)]
      ensures published == old(published) + Copies(Command(lineSpeed, angle), |old(published)|, 3)
    {
      hide Degrees;
      hide Truncate;
      hide Data;
      hide Frames;
      ghost var c, n := Command(lineSpeed, angle), |published|;
      FramesAppend(commands, c);
      var degrees := Degrees(angle);
      var gear, speed := Drive, lineSpeed;
      if lineSpeed < 0.0 {
        gear, speed, degrees := Reverse, -lineSpeed, -degrees;
      }
      var i := 0;
      while i < 3
        invariant 0 <= i <= 3 && commands == old(commands)
        invariant aliveCounter == (n + i) % 16 && published == old(published) + Copies(c, n, i)
      {
        SendIs(c, (n + i) % 16);
        NextCounter(n + i);
        hide FrameOf;
        var frame := BuildCtrlCmdData(gear, speed, degrees as real);
        published := published + [frame];
        i := i + 1;
      }
      commands := commands + [c];
    }
  }
}
