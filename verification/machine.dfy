/**
 * Fixed-width integers of the C# program and the unchecked conversions it
 * performs on them. Dafny integers are unbounded, so every wrap-around the
 * program relies on is written out here.
 */
module Machine {

  const TwoTo31: int := 0x8000_0000
  const TwoTo32: int := 0x1_0000_0000
  const TwoTo64: int := 0x1_0000_0000_0000_0000

  /** C# `uint`. */
  type UInt32 = x: int | 0 <= x < TwoTo32

  /** C# `int`. */
  type Int32 = x: int | -TwoTo31 <= x < TwoTo31

  /** C# `ulong`, the type of SDL's performance counter and frequency. */
  type UInt64 = x: int | 0 <= x < TwoTo64

  /**
   * The unchecked conversion `(int) u` of a `uint`: the same 32 bits read
   * as a two's-complement number.
   */
  function AsInt32(u: UInt32): (i: Int32)
    ensures (i - u) % TwoTo32 == 0
    ensures u < TwoTo31 ==> i == u
    ensures TwoTo31 <= u ==> i < 0
  {
    if u < TwoTo31 then u else u - TwoTo32
  }

  /**
   * Unchecked negation `-i` of an `int`: exact except for the most negative
   * value, which is its own negation.
   */
  function NegInt32(i: Int32): (r: Int32)
    ensures (r + i) % TwoTo32 == 0
    ensures i != -TwoTo31 ==> r == -i
  {
    if i == -TwoTo31 then i else -i
  }

  /**
   * The `ulong` subtraction `a - b`, which wraps modulo 2^64 when `b > a`.
   */
  function SubUInt64(a: UInt64, b: UInt64): (d: UInt64)
    ensures (d + b) % TwoTo64 == a
    ensures b <= a ==> d == a - b
    ensures a < b ==> d == a - b + TwoTo64
  {
    (a - b) % TwoTo64
  }
}
