/** The two table-driven checksums of the FDILink protocol, and the bit-by-bit
    registers they stand for: the CRC-16 with generator x^16 + x^12 + x^5 + 1 and a zero
    initial register (ITU-T V.41, section 2), and the Dallas/Maxim 1-Wire CRC-8
    x^8 + x^5 + x^4 + 1 fed low bit first (Maxim Application Note 27). */
module CrcTable {

  /** Row `r` of the sixteen rows in which `CRC8Table` is printed. */
  function Crc8Row(r: bv8): (row: seq<bv8>)
    requires r < 16
    ensures |row| == 16
  {
    if r < 4 then
      match r {
        case 0 => [0, 94, 188, 226, 97, 63, 221, 131, 194, 156, 126, 32, 163, 253, 31, 65]
        case 1 => [157, 195, 33, 127, 252, 162, 64, 30, 95, 1, 227, 189, 62, 96, 130, 220]
        case 2 => [35, 125, 159, 193, 66, 28, 254, 160, 225, 191, 93, 3, 128, 222, 60, 98]
        case _ => [190, 224, 2, 92, 223, 129, 99, 61, 124, 34, 192, 158, 29, 67, 161, 255]
      }
    else if r < 8 then
      match r {
        case 4 => [70, 24, 250, 164, 39, 121, 155, 197, 132, 218, 56, 102, 229, 187, 89, 7]
        case 5 => [219, 133, 103, 57, 186, 228, 6, 88, 25, 71, 165, 251, 120, 38, 196, 154]
        case 6 => [101, 59, 217, 135, 4, 90, 184, 230, 167, 249, 27, 69, 198, 152, 122, 36]
        case _ => [248, 166, 68, 26, 153, 199, 37, 123, 58, 100, 134, 216, 91, 5, 231, 185]
      }
    else if r < 12 then
      match r {
        case 8 => [140, 210, 48, 110, 237, 179, 81, 15, 78, 16, 242, 172, 47, 113, 147, 205]
        case 9 => [17, 79, 173, 243, 112, 46, 204, 146, 211, 141, 111, 49, 178, 236, 14, 80]
        case 10 => [175, 241, 19, 77, 206, 144, 114, 44, 109, 51, 209, 143, 12, 82, 176, 238]
        case _ => [50, 108, 142, 208, 83, 13, 239, 177, 240, 174, 76, 18, 145, 207, 45, 115]
      }
    else
      match r {
        case 12 => [202, 148, 118, 40, 171, 245, 23, 73, 8, 86, 180, 234, 105, 55, 213, 139]
        case 13 => [87, 9, 235, 181, 54, 104, 138, 212, 149, 203, 41, 119, 244, 170, 72, 22]
        case 14 => [233, 183, 85, 11, 136, 214, 52, 106, 43, 117, 151, 201, 74, 20, 246, 168]
        case _ => [116, 42, 200, 150, 21, 75, 169, 247, 182, 232, 10, 84, 215, 137, 107, 53]
      }
  }

  /** Row `r` of the thirty-two rows in which `CRC16Table` is printed. */
  function Crc16Row(r: bv8): (row: seq<bv16>)
    requires r < 32
    ensures |row| == 8
  {
    if r < 8 then
      match r {
        case 0 => [0x0000, 0x1021, 0x2042, 0x3063, 0x4084, 0x50A5, 0x60C6, 0x70E7]
        case 1 => [0x8108, 0x9129, 0xA14A, 0xB16B, 0xC18C, 0xD1AD, 0xE1CE, 0xF1EF]
        case 2 => [0x1231, 0x0210, 0x3273, 0x2252, 0x52B5, 0x4294, 0x72F7, 0x62D6]
        case 3 => [0x9339, 0x8318, 0xB37B, 0xA35A, 0xD3BD, 0xC39C, 0xF3FF, 0xE3DE]
        case 4 => [0x2462, 0x3443, 0x0420, 0x1401, 0x64E6, 0x74C7, 0x44A4, 0x5485]
        case 5 => [0xA56A, 0xB54B, 0x8528, 0x9509, 0xE5EE, 0xF5CF, 0xC5AC, 0xD58D]
        case 6 => [0x3653, 0x2672, 0x1611, 0x0630, 0x76D7, 0x66F6, 0x5695, 0x46B4]
        case _ => [0xB75B, 0xA77A, 0x9719, 0x8738, 0xF7DF, 0xE7FE, 0xD79D, 0xC7BC]
      }
    else if r < 16 then
      match r {
        case 8 => [0x48C4, 0x58E5, 0x6886, 0x78A7, 0x0840, 0x1861, 0x2802, 0x3823]
        case 9 => [0xC9CC, 0xD9ED, 0xE98E, 0xF9AF, 0x8948, 0x9969, 0xA90A, 0xB92B]
        case 10 => [0x5AF5, 0x4AD4, 0x7AB7, 0x6A96, 0x1A71, 0x0A50, 0x3A33, 0x2A12]
        case 11 => [0xDBFD, 0xCBDC, 0xFBBF, 0xEB9E, 0x9B79, 0x8B58, 0xBB3B, 0xAB1A]
        case 12 => [0x6CA6, 0x7C87, 0x4CE4, 0x5CC5, 0x2C22, 0x3C03, 0x0C60, 0x1C41]
        case 13 => [0xEDAE, 0xFD8F, 0xCDEC, 0xDDCD, 0xAD2A, 0xBD0B, 0x8D68, 0x9D49]
        case 14 => [0x7E97, 0x6EB6, 0x5ED5, 0x4EF4, 0x3E13, 0x2E32, 0x1E51, 0x0E70]
        case _ => [0xFF9F, 0xEFBE, 0xDFDD, 0xCFFC, 0xBF1B, 0xAF3A, 0x9F59, 0x8F78]
      }
    else if r < 24 then
      match r {
        case 16 => [0x9188, 0x81A9, 0xB1CA, 0xA1EB, 0xD10C, 0xC12D, 0xF14E, 0xE16F]
        case 17 => [0x1080, 0x00A1, 0x30C2, 0x20E3, 0x5004, 0x4025, 0x7046, 0x6067]
        case 18 => [0x83B9, 0x9398, 0xA3FB, 0xB3DA, 0xC33D, 0xD31C, 0xE37F, 0xF35E]
        case 19 => [0x02B1, 0x1290, 0x22F3, 0x32D2, 0x4235, 0x5214, 0x6277, 0x7256]
        case 20 => [0xB5EA, 0xA5CB, 0x95A8, 0x8589, 0xF56E, 0xE54F, 0xD52C, 0xC50D]
        case 21 => [0x34E2, 0x24C3, 0x14A0, 0x0481, 0x7466, 0x6447, 0x5424, 0x4405]
        case 22 => [0xA7DB, 0xB7FA, 0x8799, 0x97B8, 0xE75F, 0xF77E, 0xC71D, 0xD73C]
        case _ => [0x26D3, 0x36F2, 0x0691, 0x16B0, 0x6657, 0x7676, 0x4615, 0x5634]
      }
    else
      match r {
        case 24 => [0xD94C, 0xC96D, 0xF90E, 0xE92F, 0x99C8, 0x89E9, 0xB98A, 0xA9AB]
        case 25 => [0x5844, 0x4865, 0x7806, 0x6827, 0x18C0, 0x08E1, 0x3882, 0x28A3]
        case 26 => [0xCB7D, 0xDB5C, 0xEB3F, 0xFB1E, 0x8BF9, 0x9BD8, 0xABBB, 0xBB9A]
        case 27 => [0x4A75, 0x5A54, 0x6A37, 0x7A16, 0x0AF1, 0x1AD0, 0x2AB3, 0x3A92]
        case 28 => [0xFD2E, 0xED0F, 0xDD6C, 0xCD4D, 0xBDAA, 0xAD8B, 0x9DE8, 0x8DC9]
        case 29 => [0x7C26, 0x6C07, 0x5C64, 0x4C45, 0x3CA2, 0x2C83, 0x1CE0, 0x0CC1]
        case 30 => [0xEF1F, 0xFF3E, 0xCF5D, 0xDF7C, 0xAF9B, 0xBFBA, 0x8FD9, 0x9FF8]
        case _ => [0x6E17, 0x7E36, 0x4E55, 0x5E74, 0x2E93, 0x3EB2, 0x0ED1, 0x1EF0]
      }
  }

  function Crc8Entry(i: bv8): bv8 {
    Crc8Row(i >> 4)[(i & 15) as int]
  }

  function Crc16Entry(i: bv8): bv16 {
    Crc16Row(i >> 3)[(i & 7) as int]
  }

  /** The table index: the register's high byte with the message byte mixed in. */
  function Index(crc: bv16, value: bv8): bv8 {
    (((crc >> 8) ^ (value as bv16)) & 0xff) as bv8
  }

  /** One pass of the CRC-16 loop body. */
  function Crc16Step(crc: bv16, value: bv8): bv16 {
    Xor(Crc16Entry(Index(crc, value)), crc << 8)
  }

  /** The running value after the table loop has gone over all of `p`. */
  function Crc8(p: seq<bv8>): bv8 {
    if p == [] then 0 else Crc8Entry(Xor8(Crc8(p[..|p| - 1]), p[|p| - 1]))
  }

  function Crc16(p: seq<bv8>): bv16 {
    if p == [] then 0 else Crc16Step(Crc16(p[..|p| - 1]), p[|p| - 1])
  }

  // ---------------------------------------------------------------------------
  // Named bit operations, so that proofs can use their laws without their bits

  function Xor(a: bv16, b: bv16): bv16 { a ^ b }

  function Xor8(a: bv8, b: bv8): bv8 { a ^ b }

  function Low(b: bv8): bv16 { b as bv16 }

  function High(b: bv8): bv16 { (b as bv16) << 8 }

  function Join(high: bv8, low: bv8): bv16 { ((high as bv16) << 8) | (low as bv16) }

  /** Bit `k` of `w`, and all the bits from `k` up. */
  function Bit(w: bv16, k: bv4): bv16 { (w >> k) & 1 }

  function From(w: bv16, k: bv4): bv16 { w >> k }

  function Bit8(b: bv8, k: bv4): bv8
    requires k <= 8
  {
    (b >> k) & 1
  }

  function From8(b: bv8, k: bv4): bv8
    requires k <= 8
  {
    b >> k
  }

  // ---------------------------------------------------------------------------
  // Reference definitions, one bit at a time

  /** One step of long division by the generator: bring down the next message bit and
      subtract the generator when the bit shifted out is set. */
  function DivideBit(reg: bv16, bit: bv16): bv16 {
    var shifted := (reg << 1) | bit;
    if reg & 0x8000 != 0 then shifted ^ 0x1021 else shifted
  }

  function Divide(reg: bv16, bits: seq<bv16>): bv16
    decreases |bits|
  {
    if bits == [] then reg else Divide(DivideBit(reg, bits[0]), bits[1..])
  }

  /** The bits of a byte, most significant first. */
  function HighFirst(b: bv8): seq<bv16> {
    [Bit(Low(b), 7), Bit(Low(b), 6), Bit(Low(b), 5), Bit(Low(b), 4),
     Bit(Low(b), 3), Bit(Low(b), 2), Bit(Low(b), 1), Bit(Low(b), 0)]
  }

  function MessageBits(p: seq<bv8>): seq<bv16> {
    if p == [] then [] else HighFirst(p[0]) + MessageBits(p[1..])
  }

  /** Section 2 of ITU-T V.41: the remainder of M(x) * x^16 divided by the generator. */
  function V41Remainder(p: seq<bv8>): bv16 {
    Divide(0, MessageBits(p) + (HighFirst(0) + HighFirst(0)))
  }

  /** One clock of the 1-Wire register: low bit first, feedback 0x8C. */
  function OneWireBit(reg: bv8, bit: bv8): bv8 {
    if (reg ^ bit) & 1 != 0 then (reg >> 1) ^ 0x8C else reg >> 1
  }

  function OneWireByte(reg: bv8, b: bv8): bv8 {
    OneWireBit(OneWireBit(OneWireBit(OneWireBit(OneWireBit(OneWireBit(OneWireBit(OneWireBit(
      reg, Bit8(b, 0)), Bit8(b, 1)), Bit8(b, 2)), Bit8(b, 3)),
      Bit8(b, 4)), Bit8(b, 5)), Bit8(b, 6)), Bit8(b, 7))
  }

  function OneWire(reg: bv8, p: seq<bv8>): bv8
    decreases |p|
  {
    if p == [] then reg else OneWire(OneWireByte(reg, p[0]), p[1..])
  }

  // ---------------------------------------------------------------------------
  // The tables hold the eight-step registers

  function Shift(r: bv16): bv16 {
    if r & 0x8000 != 0 then (r << 1) ^ 0x1021 else r << 1
  }

  function Shift8(r: bv16): bv16 {
    Shift(Shift(Shift(Shift(Shift(Shift(Shift(Shift(r))))))))
  }

  predicate Crc16CellOk(r: bv8, c: bv8)
    requires r < 32 && c < 8
  {
    Crc16Row(r)[c as int] == Shift8((((r << 3) | c) as bv16) << 8)
  }

  predicate Crc16RowOk(r: bv8)
    requires r < 32
  {
    && Crc16CellOk(r, 0) && Crc16CellOk(r, 1) && Crc16CellOk(r, 2) && Crc16CellOk(r, 3)
    && Crc16CellOk(r, 4) && Crc16CellOk(r, 5) && Crc16CellOk(r, 6) && Crc16CellOk(r, 7)
  }

  lemma Crc16Rows0(r: bv8)
    requires 0 <= r < 8
    ensures Crc16RowOk(r)
  {
    if r == 0 { assert Crc16RowOk(0); }
    else if r == 1 { assert Crc16RowOk(1); }
    else if r == 2 { assert Crc16RowOk(2); }
    else if r == 3 { assert Crc16RowOk(3); }
    else if r == 4 { assert Crc16RowOk(4); }
    else if r == 5 { assert Crc16RowOk(5); }
    else if r == 6 { assert Crc16RowOk(6); }
    else if r == 7 { assert Crc16RowOk(7); }
  }

  lemma Crc16Rows1(r: bv8)
    requires 8 <= r < 16
    ensures Crc16RowOk(r)
  {
    if r == 8 { assert Crc16RowOk(8); }
    else if r == 9 { assert Crc16RowOk(9); }
    else if r == 10 { assert Crc16RowOk(10); }
    else if r == 11 { assert Crc16RowOk(11); }
    else if r == 12 { assert Crc16RowOk(12); }
    else if r == 13 { assert Crc16RowOk(13); }
    else if r == 14 { assert Crc16RowOk(14); }
    else if r == 15 { assert Crc16RowOk(15); }
  }

  lemma Crc16Rows2(r: bv8)
    requires 16 <= r < 24
    ensures Crc16RowOk(r)
  {
    if r == 16 { assert Crc16RowOk(16); }
    else if r == 17 { assert Crc16RowOk(17); }
    else if r == 18 { assert Crc16RowOk(18); }
    else if r == 19 { assert Crc16RowOk(19); }
    else if r == 20 { assert Crc16RowOk(20); }
    else if r == 21 { assert Crc16RowOk(21); }
    else if r == 22 { assert Crc16RowOk(22); }
    else if r == 23 { assert Crc16RowOk(23); }
  }

  lemma Crc16Rows3(r: bv8)
    requires 24 <= r < 32
    ensures Crc16RowOk(r)
  {
    if r == 24 { assert Crc16RowOk(24); }
    else if r == 25 { assert Crc16RowOk(25); }
    else if r == 26 { assert Crc16RowOk(26); }
    else if r == 27 { assert Crc16RowOk(27); }
    else if r == 28 { assert Crc16RowOk(28); }
    else if r == 29 { assert Crc16RowOk(29); }
    else if r == 30 { assert Crc16RowOk(30); }
    else if r == 31 { assert Crc16RowOk(31); }
  }

  lemma Crc16Cell(r: bv8, c: bv8)
    requires r < 32 && c < 8
    ensures Crc16CellOk(r, c)
  {
    hide Crc16CellOk;
    if r < 8 { Crc16Rows0(r); } else if r < 16 { Crc16Rows1(r); } else if r < 24 { Crc16Rows2(r); } else { Crc16Rows3(r); }
    assert c == 0 || c == 1 || c == 2 || c == 3 || c == 4 || c == 5 || c == 6 || c == 7;
  }

  /** Every one of the 256 printed CRC-16 entries is the index shifted through eight
      division steps. */
  lemma Crc16EntryIsEightShifts(i: bv8)
    ensures Crc16Entry(i) == Shift8((i as bv16) << 8)
  {
    assert i >> 3 < 32 && i & 7 < 8 && (((i >> 3) << 3) | (i & 7)) == i;
    Crc16Cell(i >> 3, i & 7);
  }

  predicate Crc8CellOk(r: bv8, c: bv8)
    requires r < 16 && c < 16
  {
    Crc8Row(r)[c as int] == OneWireByte(0, (r << 4) | c)
  }

  predicate Crc8RowOk(r: bv8)
    requires r < 16
  {
    && Crc8CellOk(r, 0) && Crc8CellOk(r, 1) && Crc8CellOk(r, 2) && Crc8CellOk(r, 3)
    && Crc8CellOk(r, 4) && Crc8CellOk(r, 5) && Crc8CellOk(r, 6) && Crc8CellOk(r, 7)
    && Crc8CellOk(r, 8) && Crc8CellOk(r, 9) && Crc8CellOk(r, 10) && Crc8CellOk(r, 11)
    && Crc8CellOk(r, 12) && Crc8CellOk(r, 13) && Crc8CellOk(r, 14) && Crc8CellOk(r, 15)
  }

  lemma Crc8ZeroRow()
    ensures Crc8RowOk(0)
  {
    assert Crc8CellOk(0, 0) && Crc8CellOk(0, 1) && Crc8CellOk(0, 2) && Crc8CellOk(0, 3);
    assert Crc8CellOk(0, 4) && Crc8CellOk(0, 5) && Crc8CellOk(0, 6) && Crc8CellOk(0, 7);
    assert Crc8CellOk(0, 8) && Crc8CellOk(0, 9) && Crc8CellOk(0, 10) && Crc8CellOk(0, 11);
    assert Crc8CellOk(0, 12) && Crc8CellOk(0, 13) && Crc8CellOk(0, 14) && Crc8CellOk(0, 15);
  }

  lemma Crc8Rows0(r: bv8)
    requires 0 <= r < 2
    ensures Crc8RowOk(r)
  {
    if r == 0 { Crc8ZeroRow(); } else { assert Crc8RowOk(1); }
  }

  lemma Crc8Rows1(r: bv8)
    requires 2 <= r < 4
    ensures Crc8RowOk(r)
  {
    if r == 2 { assert Crc8RowOk(2); } else { assert Crc8RowOk(3); }
  }

  lemma Crc8Rows2(r: bv8)
    requires 4 <= r < 6
    ensures Crc8RowOk(r)
  {
    if r == 4 { assert Crc8RowOk(4); } else { assert Crc8RowOk(5); }
  }

  lemma Crc8Rows3(r: bv8)
    requires 6 <= r < 8
    ensures Crc8RowOk(r)
  {
    if r == 6 { assert Crc8RowOk(6); } else { assert Crc8RowOk(7); }
  }

  lemma Crc8Rows4(r: bv8)
    requires 8 <= r < 10
    ensures Crc8RowOk(r)
  {
    if r == 8 { assert Crc8RowOk(8); } else { assert Crc8RowOk(9); }
  }

  lemma Crc8Rows5(r: bv8)
    requires 10 <= r < 12
    ensures Crc8RowOk(r)
  {
    if r == 10 { assert Crc8RowOk(10); } else { assert Crc8RowOk(11); }
  }

  lemma Crc8Rows6(r: bv8)
    requires 12 <= r < 14
    ensures Crc8RowOk(r)
  {
    if r == 12 { assert Crc8RowOk(12); } else { assert Crc8RowOk(13); }
  }

  lemma Crc8Rows7(r: bv8)
    requires 14 <= r < 16
    ensures Crc8RowOk(r)
  {
    if r == 14 { assert Crc8RowOk(14); } else { assert Crc8RowOk(15); }
  }

  lemma Crc8Cell(r: bv8, c: bv8)
    requires r < 16 && c < 16
    ensures Crc8CellOk(r, c)
  {
    hide Crc8CellOk;
    if r < 2 { Crc8Rows0(r); }
    else if r < 4 { Crc8Rows1(r); }
    else if r < 6 { Crc8Rows2(r); }
    else if r < 8 { Crc8Rows3(r); }
    else if r < 10 { Crc8Rows4(r); }
    else if r < 12 { Crc8Rows5(r); }
    else if r < 14 { Crc8Rows6(r); }
    else { Crc8Rows7(r); }
    assert c == 0 || c == 1 || c == 2 || c == 3 || c == 4 || c == 5 || c == 6 || c == 7
        || c == 8 || c == 9 || c == 10 || c == 11 || c == 12 || c == 13 || c == 14 || c == 15;
  }

  /** Every one of the 256 printed CRC-8 entries is the 1-Wire register after one byte. */
  lemma Crc8EntryIsOneWire(i: bv8)
    ensures Crc8Entry(i) == OneWireByte(0, i)
  {
    assert i >> 4 < 16 && i & 15 < 16 && (((i >> 4) << 4) | (i & 15)) == i;
    Crc8Cell(i >> 4, i & 15);
  }
}
