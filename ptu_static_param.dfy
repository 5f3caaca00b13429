/**
 * The PTU static parameter record: the transmitter's capability record,
 * written by the transmitter and decoded by the receiver.  Several fields
 * are encoded quantities, which the accessors below turn into numbers.
 */
module PtuStatic {
  import opened JavaBits

  datatype PtuStaticParam = PtuStaticParam(
    optValidity: bv8,
    power: bv8,
    maxSrcImpedance: bv8,
    maxLoadResistance: bv8,
    id: bv16,
    ptuClass: bv8,
    hwRev: bv8,
    fwRev: bv8,
    protocolRev: bv8,
    maxDevicesSupported: bv8,
    reserved1: bv32,
    reserved2: bv16)

  /**
   * Decodes a record.  Byte 4 alone gives the id (sign-extended); bytes 5,
   * 11-13 and 15 onwards are not read, and the protocol revision is never
   * assigned, so it keeps Java's default 0.
   */
  function Decode(value: seq<bv8>): (p: PtuStaticParam)
    requires |value| >= 15
    ensures p.optValidity == value[0] && p.power == value[1]
    ensures p.maxSrcImpedance == value[2] && p.maxLoadResistance == value[3]
    ensures p.ptuClass == value[6] && p.hwRev == value[7] && p.fwRev == value[8]
    ensures p.maxDevicesSupported == value[9]
    ensures SignedShort(p.id) == SignedByte(value[4])
    ensures p.protocolRev == 0
    ensures p.reserved1 & 0xFF == value[10] as bv32
    ensures p.reserved1 >> 8 == if value[10] < 0x80 then 0 else 0xFF_FFFF
    ensures SignedShort(p.reserved2) == SignedByte(value[14])
  {
    PtuStaticParam(
      value[0], value[1], value[2], value[3],
      ByteToShort(value[4]),
      value[6], value[7], value[8],
      0,
      value[9],
      WidenByte(value[10]),
      ByteToShort(value[14]))
  }

  /** Only the bytes `Decode` reads decide the record. */
  lemma DecodeReadsOnlyItsBytes(v: seq<bv8>, w: seq<bv8>)
    requires |v| >= 15 && |w| >= 15
    requires v[..5] == w[..5] && v[6..11] == w[6..11] && v[14] == w[14]
    ensures Decode(v) == Decode(w)
  {
    assert v[0] == w[0] && v[1] == w[1] && v[2] == w[2] && v[3] == w[3] && v[4] == w[4];
    assert v[6] == w[6] && v[7] == w[7] && v[8] == w[8] && v[9] == w[9] && v[10] == w[10];
  }

  /** The unsigned value of bits 2-7 of a byte, `(b & 0xfc) >> 2` in Java. */
  function Bits2To7(b: bv8): (r: int)
    ensures 0 <= r < 64 && r == b as int / 4
  {
    ((WidenByte(b) & 0xFC) >> 2) as int
  }

  /** The unsigned value of bits 3-7 of a byte, `(b & 0xf8) >> 3` in Java. */
  function Bits3To7(b: bv8): (r: int)
    ensures 0 <= r < 32 && r == b as int / 8
  {
    ((WidenByte(b) & 0xF8) >> 3) as int
  }

  /**
   * The transmitter's power, in half-watts: 0.5 * (field + 1) watts, capped
   * at 22 W.  The result is 44 half-watts for field values 43 and up (the
   * clamp itself fires from 44; field 43 gives 22 W unclamped).
   */
  function Power(p: PtuStaticParam): (halfWatts: int)
    ensures 1 <= halfWatts <= 44
    ensures p.power as int / 4 < 43 ==> halfWatts == p.power as int / 4 + 1
    ensures p.power as int / 4 >= 43 ==> halfWatts == 44
  {
    var val := Bits2To7(p.power) + 1;
    if val > 44 then 44 else val
  }

  /**
   * The maximum source impedance in ohms: 50 + 10 * field.  The field has
   * five bits, so the value never exceeds 360 and the cap at 375 never
   * takes effect.
   */
  function MaxSrcImpedance(p: PtuStaticParam): (ohms: int)
    ensures 50 <= ohms <= 360
    ensures ohms == 50 + 10 * (p.maxSrcImpedance as int / 8)
  {
    var val := 50 + Bits3To7(p.maxSrcImpedance) * 10;
    if val > 375 then 375 else val
  }

  /** The maximum load resistance in ohms: 5 * (field + 1), capped at 55. */
  function MaxLoadResistance(p: PtuStaticParam): (ohms: int)
    ensures 5 <= ohms <= 55 && ohms % 5 == 0
    ensures p.maxLoadResistance as int / 8 < 11 ==> ohms == 5 * (p.maxLoadResistance as int / 8 + 1)
    ensures p.maxLoadResistance as int / 8 >= 10 ==> ohms == 55
  {
    var val := 5 * (Bits3To7(p.maxLoadResistance) + 1);
    if val > 55 then 55 else val
  }

  /**
   * The number of devices the transmitter supports: the signed field plus
   * one, capped at 8.  A byte of 0x80 or more is negative in Java, so it
   * gives 0 or less.
   */
  function MaxDevicesSupported(p: PtuStaticParam): (n: int)
    ensures -127 <= n <= 8
    ensures n <= 0 <==> p.maxDevicesSupported >= 0x80
    ensures p.maxDevicesSupported < 0x07 ==> n == p.maxDevicesSupported as int + 1
    ensures 0x07 <= p.maxDevicesSupported < 0x80 ==> n == 8
    ensures p.maxDevicesSupported >= 0x80 ==> n == p.maxDevicesSupported as int - 255
  {
    var val := SignedByte(p.maxDevicesSupported) + 1;
    if val > 8 then 8 else val
  }

  /**
   * The transmitter's class: 5 for a signed field above 4, the field plus
   * one otherwise; a negative field gives 0 or less.
   */
  function PtuClass(p: PtuStaticParam): (c: int)
    ensures -127 <= c <= 5
    ensures c == 5 <==> 4 <= p.ptuClass < 0x80
    ensures c <= 0 <==> p.ptuClass >= 0x80
    ensures p.ptuClass < 4 ==> c == p.ptuClass as int + 1
    ensures p.ptuClass >= 0x80 ==> c == p.ptuClass as int - 255
  {
    if SignedByte(p.ptuClass) > 4 then 5 else SignedByte(p.ptuClass) + 1
  }
}
