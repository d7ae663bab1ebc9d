/**
 * Fixed-width machine integers of the engine: SDL's `Uint64` with C++'s
 * modular (wrap-around) unsigned arithmetic, and the conversion of a
 * `Uint64` to a 32-bit `int`.
 */
module MachineInts {

  const TWO_TO_THE_64: nat := 0x1_0000_0000_0000_0000
  const TWO_TO_THE_32: nat := 0x1_0000_0000
  const TWO_TO_THE_31: nat := 0x8000_0000

  /** SDL's Uint64. */
  type U64 = x: nat | x < TWO_TO_THE_64

  /** A value of C++ `int` (32 bits on every platform the engine targets). */
  type I32 = x: int | -(TWO_TO_THE_31 as int) <= x < TWO_TO_THE_31

  /** Unsigned subtraction `a - b` in Uint64: the result of wrapping modulo 2^64. */
  function WrapSub(a: U64, b: U64): (r: U64)
    ensures (b + r) % TWO_TO_THE_64 == a
    ensures a >= b ==> r == a - b
  {
    if a >= b then a - b else TWO_TO_THE_64 - (b - a)
  }

  /** Unsigned addition `a + b` in Uint64. */
  function WrapAdd(a: U64, b: U64): (r: U64)
    ensures r % TWO_TO_THE_64 == (a + b) % TWO_TO_THE_64
    ensures a + b < TWO_TO_THE_64 ==> r == a + b
  {
    (a + b) % TWO_TO_THE_64
  }

  /**
   * `int x = u` for a Uint64 `u`: the low 32 bits of `u`, read as a
   * two's-complement number.
   */
  function ToI32(u: U64): (r: I32)
    ensures (r - u) % TWO_TO_THE_32 == 0
    ensures r < 0 <==> u % TWO_TO_THE_32 >= TWO_TO_THE_31
  {
    var low := u % TWO_TO_THE_32;
    if low >= TWO_TO_THE_31 then low - TWO_TO_THE_32 else low
  }
}
