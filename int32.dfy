/** The C# `int`: 32-bit two's complement, with unchecked arithmetic wrapping around. */
module Int32 {
  const Int32Min := -0x8000_0000
  const Int32Max := 0x7fff_ffff
  /** 2 to the 32nd: one full turn of the wrap-around. */
  const Turn := 0x1_0000_0000

  type int32 = x: int | Int32Min <= x <= Int32Max

  /**
   * The `int` an unchecked C# operation yields for the exact result `x`:
   * `x` itself when it fits, otherwise `x` moved by whole turns into range.
   */
  function Wrap(x: int): (r: int32)
    ensures Int32Min <= x <= Int32Max ==> r == x
    ensures Int32Max < x <= Int32Max + Turn ==> r == x - Turn
    ensures Int32Min - Turn <= x < Int32Min ==> r == x + Turn
    ensures (x - r) % Turn == 0
  {
    (x - Int32Min) % Turn + Int32Min
  }
}
