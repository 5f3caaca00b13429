/**
 * The PRU static parameter record: the receiver's 20-byte capability
 * record, read by the transmitter.  The service creates one with fixed
 * defaults; `SetValue` overwrites it from wire bytes.
 */
module PruStatic {
  import opened JavaBits

  // Defaults the record is created with.
  const DefaultId: bv32 := 0xFFFF
  const DefaultCategory: bv8 := 3
  const DefaultCapabilities: bv8 := 0x00
  const DefaultHwVersion: bv32 := 0x0700
  const DefaultFwVersion: bv8 := 0x05
  const DefaultMaxPowerDesired: int := 3650
  const DefaultVrectMin: bv16 := 9000
  const DefaultVrectMax: bv16 := 18000
  const DefaultVrectSet: bv16 := 11000
  const DefaultDeltaR1: bv16 := 1
  const DefaultRrxInt: bv16 := 0
  const DefaultRectImpTransform: bv8 := 0
  const DefaultRectEff: bv8 := 0

  // Masks used to split a 16-bit field into two bytes.
  const MsbMask: bv32 := 0xFF00
  const LsbMask: bv32 := 0x00FF

  /** The low byte of a 16-bit field, as the encoder writes it. */
  function LowByte(s: bv16): (r: bv8)
    ensures r as bv16 == s & 0xFF
  {
    NarrowToByte(LsbMask & WidenShort(s))
  }

  /**
   * The "high byte" of a 16-bit field, as the encoder writes it: the cast to
   * `byte` keeps bits 0-7 of `0xFF00 & s`, all of which the mask cleared.
   */
  function HighByte(s: bv16): (r: bv8)
    ensures r == 0
  {
    NarrowToByte(MsbMask & WidenShort(s))
  }

  /** The `int` value of `(short)(8 << hi)`, the term the decoder ors in. */
  function ShiftedEight(hi: bv8): bv32
  {
    WidenShort(NarrowToShort(ShiftLeft(8, WidenByte(hi))))
  }

  /**
   * The decoder's reading of a 16-bit field from a low and a high byte:
   * `x = lo; x |= (short)(8 << hi);`.  The high byte does not supply bits
   * 8-15; it is a shift count, and contributes at most one set bit, at
   * position (hi mod 32) + 3, and none when that position is past bit 15.
   */
  function Decode16(lo: bv8, hi: bv8): (r: bv16)
    ensures var k := hi & 31;
            r == ByteToShort(lo) | (if k <= 12 then (1 as bv16) << (k + 3) else 0)
  {
    assert WidenByte(hi) & 31 == (hi & 31) as bv32;
    assert NarrowToShort(ShiftLeft(8, WidenByte(hi)))
        == if hi & 31 <= 12 then (1 as bv16) << ((hi & 31) + 3) else 0;
    OrIntoShort(ByteToShort(lo), ShiftedEight(hi))
  }

  /**
   * Decoding a field as the encoder wrote it (high byte 0) does not give the
   * field back: the result is the sign-extended low byte with bit 3 set, so
   * the field's own high byte is lost and the re-encoded low byte is
   * `lo | 0x08`.
   */
  lemma DecodeOfEncodedField(s: bv16)
    ensures Decode16(LowByte(s), HighByte(s)) == ByteToShort(LowByte(s)) | 0x08
    ensures Decode16(LowByte(s), HighByte(s)) >> 8 == if s & 0x80 == 0 then 0 else 0xFF
    ensures LowByte(Decode16(LowByte(s), HighByte(s))) == LowByte(s) | 0x08
    ensures LowByte(Decode16(LowByte(s), HighByte(s))) == LowByte(s) <==> s & 0x08 != 0
  {
  }

  /** The encoding of the record as the service creates it. */
  const DefaultRecord: seq<bv8> :=
    [0, 0xFF, 0, 3, 0, 7, 5, 36, 0x28, 0, 0x28, 0, 0xF8, 0, 1, 0, 0, 0, 0, 0]

  datatype PruStaticParam = PruStaticParam(
    optValidity: bv8,
    id: bv16,
    category: bv8,
    capabilities: bv8,
    hwRev: bv8,
    fwRev: bv8,
    maxPowerDesired: bv8,
    vrectMinStatic: bv16,
    vrectMaxStatic: bv16,
    vrectSet: bv16,
    deltaR1: bv16,
    rrxInval: bv16,
    rectifierImpedXform: bv8,
    rectifierEfficiency: bv8)

  /** The record with the service's defaults. */
  function Initial(): (p: PruStaticParam)
    ensures p.id == 0xFFFF && p.category == 3 && p.hwRev == 7 && p.fwRev == 5
    ensures p.maxPowerDesired == 36
    ensures p.vrectMinStatic == 9000 && p.vrectMaxStatic == 18000 && p.vrectSet == 11000
    ensures p.deltaR1 == 1 && p.rrxInval == 0
    ensures Value(p) == DefaultRecord
  {
    PruStaticParam(
      optValidity := 0,
      id := NarrowToShort(DefaultId),
      category := DefaultCategory,
      capabilities := DefaultCapabilities,
      hwRev := NarrowToByte((DefaultHwVersion >> 8) & 0xFF),
      fwRev := DefaultFwVersion,
      maxPowerDesired := (DefaultMaxPowerDesired / 100) as bv8,
      vrectMinStatic := DefaultVrectMin,
      vrectMaxStatic := DefaultVrectMax,
      vrectSet := DefaultVrectSet,
      deltaR1 := DefaultDeltaR1,
      rrxInval := DefaultRrxInt,
      rectifierImpedXform := DefaultRectImpTransform,
      rectifierEfficiency := DefaultRectEff)
  }

  /**
   * The 20-byte encoding.  Each 16-bit field is written low byte first,
   * but the "high byte" slot is always 0, and bytes 10-11 repeat Vrect-min:
   * Vrect-max is not part of the encoding.
   */
  function Value(p: PruStaticParam): (r: seq<bv8>)
    ensures |r| == 20
    ensures r[2] == r[9] == r[11] == r[13] == r[15] == r[17] == 0
    ensures r[0] == p.optValidity && r[3] == p.category && r[4] == p.capabilities
    ensures r[5] == p.hwRev && r[6] == p.fwRev && r[7] == p.maxPowerDesired
    ensures r[18] == p.rectifierImpedXform && r[19] == p.rectifierEfficiency
    ensures r[1] as bv16 == p.id & 0xFF
    ensures r[8] as bv16 == p.vrectMinStatic & 0xFF && r[10] == r[8]
    ensures r[12] as bv16 == p.vrectSet & 0xFF
    ensures r[14] as bv16 == p.deltaR1 & 0xFF
    ensures r[16] as bv16 == p.rrxInval & 0xFF
  {
    [p.optValidity,
     LowByte(p.id), HighByte(p.id),
     p.category, p.capabilities, p.hwRev, p.fwRev, p.maxPowerDesired,
     LowByte(p.vrectMinStatic), HighByte(p.vrectMinStatic),
     LowByte(p.vrectMinStatic), HighByte(p.vrectMinStatic),
     LowByte(p.vrectSet), HighByte(p.vrectSet),
     LowByte(p.deltaR1), HighByte(p.deltaR1),
     LowByte(p.rrxInval), HighByte(p.rrxInval),
     p.rectifierImpedXform, p.rectifierEfficiency]
  }

  /** Vrect-max has no effect on the encoding. */
  lemma ValueIgnoresVrectMax(p: PruStaticParam, vrectMax: bv16)
    ensures Value(p.(vrectMaxStatic := vrectMax)) == Value(p)
  {
  }

  /**
   * The record overwritten from wire bytes, one field at a time.  Vrect-min
   * is assigned twice, from bytes 8-9 and then from bytes 10-11, so only the
   * second pair counts; Vrect-max is never assigned.
   */
  function SetValue(p: PruStaticParam, value: seq<bv8>): (q: PruStaticParam)
    requires |value| >= 20
    ensures q.optValidity == value[0] && q.category == value[3] && q.capabilities == value[4]
    ensures q.hwRev == value[5] && q.fwRev == value[6] && q.maxPowerDesired == value[7]
    ensures q.rectifierImpedXform == value[18] && q.rectifierEfficiency == value[19]
    ensures q.id == Decode16(value[1], value[2])
    ensures q.vrectMinStatic == Decode16(value[10], value[11])
    ensures q.vrectMaxStatic == p.vrectMaxStatic
    ensures q.vrectSet == Decode16(value[12], value[13])
    ensures q.deltaR1 == Decode16(value[14], value[15])
    ensures q.rrxInval == Decode16(value[16], value[17])
  {
    var p := p.(optValidity := value[0]);
    var p := p.(id := Decode16(value[1], value[2]));
    var p := p.(category := value[3]);
    var p := p.(capabilities := value[4]);
    var p := p.(hwRev := value[5]);
    var p := p.(fwRev := value[6]);
    var p := p.(maxPowerDesired := value[7]);
    var p := p.(vrectMinStatic := Decode16(value[8], value[9]));
    var p := p.(vrectMinStatic := Decode16(value[10], value[11]));
    var p := p.(vrectSet := Decode16(value[12], value[13]));
    var p := p.(deltaR1 := Decode16(value[14], value[15]));
    var p := p.(rrxInval := Decode16(value[16], value[17]));
    var p := p.(rectifierImpedXform := value[18]);
    var p := p.(rectifierEfficiency := value[19]);
    p
  }

  /**
   * Re-encoding after a decode: the single-byte fields come back as written,
   * the high-byte slots as 0, and each low-byte slot as the low byte of the
   * decoded field (the written low byte, with the decoder's extra bit when
   * that bit falls in bits 3-7); bytes 8 and 10 both carry what was decoded
   * from bytes 10-11.
   */
  lemma ValueAfterSetValue(p: PruStaticParam, value: seq<bv8>)
    requires |value| >= 20
    ensures var r := Value(SetValue(p, value));
            && (forall i :: i in {0, 3, 4, 5, 6, 7, 18, 19} ==> r[i] == value[i])
            && r[1] == LowByte(Decode16(value[1], value[2]))
            && r[8] == r[10] == LowByte(Decode16(value[10], value[11]))
            && r[12] == LowByte(Decode16(value[12], value[13]))
            && r[14] == LowByte(Decode16(value[14], value[15]))
            && r[16] == LowByte(Decode16(value[16], value[17]))
            && r[2] == r[9] == r[11] == r[13] == r[15] == r[17] == 0
  {
  }

  /**
   * Decoding the default encoding does not give the defaults back: Delta-R1
   * becomes 9 and Rrx-invalid 8, because the decoder sets bit 3 of each.
   */
  lemma DefaultDoesNotRoundTrip()
    ensures var q := SetValue(Initial(), DefaultRecord);
            q.deltaR1 == 9 && q.rrxInval == 8 && q != Initial()
  {
  }
}
