/**
 * Java's fixed-width integers, written out on bit-vectors.
 *
 * A Java `byte` is held as its eight raw bits (`bv8`), a `short` as `bv16`
 * and an `int` as `bv32`.  Java reads all three as two's-complement signed
 * numbers; the functions below make that reading, the sign extension Java
 * performs when it widens a value, the truncation of a narrowing cast and
 * the masking of a shift count explicit.
 */
module JavaBits {

  /** The signed number a Java `byte` stands for. */
  function SignedByte(b: bv8): (r: int)
    ensures -128 <= r < 128
    ensures r < 0 <==> b >= 0x80
    ensures r == b as int || r == b as int - 256
  {
    if b < 0x80 then b as int else b as int - 256
  }

  /** The signed number a Java `short` stands for. */
  function SignedShort(s: bv16): (r: int)
    ensures -32768 <= r < 32768
    ensures r < 0 <==> s >= 0x8000
  {
    SignedByte((s >> 8) as bv8) * 256 + (s & 0xFF) as bv8 as int
  }

  /** Widening a `byte` to an `int`: sign extension to 32 bits. */
  function WidenByte(b: bv8): (r: bv32)
    ensures r & 0xFF == b as bv32
    ensures r >> 8 == if b < 0x80 then 0 else 0xFF_FFFF
  {
    if b < 0x80 then b as bv32 else b as bv32 | 0xFFFF_FF00
  }

  /** Widening a `short` to an `int`: sign extension to 32 bits. */
  function WidenShort(s: bv16): (r: bv32)
    ensures r & 0xFFFF == s as bv32
    ensures r >> 16 == if s < 0x8000 then 0 else 0xFFFF
  {
    if s < 0x8000 then s as bv32 else s as bv32 | 0xFFFF_0000
  }

  /** Widening a `byte` to a `short` (an assignment `short x = b;`). */
  function ByteToShort(b: bv8): (r: bv16)
    ensures r & 0xFF == b as bv16
    ensures r >> 8 == if b < 0x80 then 0 else 0xFF
  {
    if b < 0x80 then b as bv16 else b as bv16 | 0xFF00
  }

  /** The cast `(byte) x` of an `int`: only the low eight bits are kept. */
  function NarrowToByte(x: bv32): (r: bv8)
    ensures r as bv32 == x & 0xFF
  {
    (x & 0xFF) as bv8
  }

  /** The cast `(short) x` of an `int`: only the low sixteen bits are kept. */
  function NarrowToShort(x: bv32): (r: bv16)
    ensures r as bv32 == x & 0xFFFF
  {
    (x & 0xFFFF) as bv16
  }

  /**
   * Java's `x << n` on `int`: only the low five bits of the count `n` are
   * used, so a count of 32 or more, or a negative one, wraps round.
   */
  function ShiftLeft(x: bv32, n: bv32): (r: bv32)
    ensures n & 31 == 0 ==> r == x
  {
    x << (n & 31)
  }

  /**
   * Java's compound assignment `x |= y` on a `short` variable `x`: both
   * sides are widened to `int`, or-ed, and the result is cast back to
   * `short`.  It acts as a 16-bit or with the low half of `y`.
   */
  function OrIntoShort(x: bv16, y: bv32): (r: bv16)
    ensures r == x | NarrowToShort(y)
  {
    NarrowToShort(WidenShort(x) | y)
  }

  /**
   * Java's compound assignment `x |= y` on a `byte` variable `x`: an `int`
   * or, cast back to `byte`.
   */
  function OrIntoByte(x: bv8, y: bv32): (r: bv8)
    ensures r == x | NarrowToByte(y)
  {
    NarrowToByte(WidenByte(x) | y)
  }
}
