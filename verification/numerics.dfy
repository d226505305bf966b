/** Fixed-width integers of the C# source: the 32-bit `int` used for grid
    coordinates and the 16-bit `ushort` stored in the height buffer. */
module Numerics {

  const IntMinValue: int := -0x8000_0000
  const IntMaxValue: int := 0x7FFF_FFFF

  /** A C# `int`. */
  type Int32 = x: int | IntMinValue <= x <= IntMaxValue

  /** A C# `ushort`, the element type of a height map. */
  type UShort = x: int | 0 <= x < 0x1_0000

  /** Two's-complement wrap-around of a mathematical integer into a C# `int`,
      as unchecked C# arithmetic does. */
  function Wrap32(v: int): (r: Int32)
    ensures IntMinValue <= v <= IntMaxValue ==> r == v
    ensures (r - v) % 0x1_0000_0000 == 0
  {
    (v - IntMinValue) % 0x1_0000_0000 + IntMinValue
  }
}
