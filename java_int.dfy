/**
 * Java's fixed-width integers. Dafny integers are unbounded, so the 32-bit
 * two's-complement wrap-around of Java `int` arithmetic is written out here.
 */
module JavaInt {
  /** A Java `int`. */
  newtype int32 = x: int | -0x8000_0000 <= x < 0x8000_0000

  /** A Java `byte` (signed). */
  newtype byte = x: int | -0x80 <= x < 0x80

  /** The Java `int` that 32-bit arithmetic leaves for the mathematical value `x`. */
  function Wrap32(x: int): (r: int32)
    ensures (r as int - x) % 0x1_0000_0000 == 0
    ensures -0x8000_0000 <= x < 0x8000_0000 ==> r as int == x
  {
    ((x + 0x8000_0000) % 0x1_0000_0000 - 0x8000_0000) as int32
  }

  /** Java's `a * b` on two `int`s: exact when the product fits, wrapped otherwise. */
  function Mul(a: int32, b: int32): (r: int32)
    ensures -0x8000_0000 <= a as int * b as int < 0x8000_0000 ==> r as int == a as int * b as int
    ensures (r as int - a as int * b as int) % 0x1_0000_0000 == 0
  {
    Wrap32(a as int * b as int)
  }
}
