/**
 * The PRU control record: the transmitter's 4-byte command.  It is decoded
 * once per write and read through the accessors below.
 */
module Control {
  import opened JavaBits
  import opened Wipower

  datatype PruControl = PruControl(
    enable: bv8,
    permission: bv8,
    timeSet: bv8,
    reserved: bv16)

  /** Decodes a record from the first four bytes written. */
  function Decode(value: seq<bv8>): (c: PruControl)
    requires |value| >= 4
    ensures c.enable == value[0] && c.permission == value[1] && c.timeSet == value[2]
    ensures SignedShort(c.reserved) == SignedByte(value[3])
  {
    PruControl(value[0], value[1], value[2], ByteToShort(value[3]))
  }

  /** Bit 0x80 of the enable byte: switch the receiver's output on. */
  function EnablePruOutput(c: PruControl): (on: bool)
    ensures on <==> c.enable >= 0x80
  {
    WidenByte(c.enable) & 0x80 == 0x80
  }

  /** Bit 0x40 of the enable byte: switch the charger on. */
  function EnableCharger(c: PruControl): (on: bool)
    ensures on <==> (c.enable as int / 64) % 2 == 1
  {
    WidenByte(c.enable) & 0x40 == 0x40
  }

  /**
   * The power level the 2-bit reduction code (bits 0x30) selects.  Code 0
   * gives Maximum.  The test meant for Medium, `val == 1 && val == 3`, never
   * holds, so codes 1, 2 and 3 all keep the initial Minimum.
   */
  function ReducePower(c: PruControl): (level: PowerLevel)
    ensures level == Maximum <==> (c.enable as int / 16) % 4 == 0
    ensures level == Minimum <==> (c.enable as int / 16) % 4 != 0
    ensures level != Medium
  {
    var val := ((WidenByte(c.enable) & 0x30) >> 4) as int;
    if val == 0 then Maximum
    else if val == 1 && val == 3 then Medium
    else if val == 2 then Minimum
    else Minimum
  }

  /**
   * Whether charging is permitted: only bit 0x80 of the permission byte is
   * looked at, and a set bit means denied, whatever the reason code below it.
   */
  function Permission(c: PruControl): (granted: bool)
    ensures granted <==> SignedByte(c.permission) >= 0
  {
    !(WidenByte(c.permission) & 0x80 == 0x80)
  }

  /** The time field in milliseconds: the signed byte times ten. */
  function SetTime(c: PruControl): (ms: int)
    ensures -1280 <= ms <= 1270 && ms % 10 == 0
    ensures ms < 0 <==> c.timeSet >= 0x80
    ensures (ms / 10) % 256 == c.timeSet as int
  {
    SignedByte(c.timeSet) * 10
  }
}
