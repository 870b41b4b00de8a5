/**
 * Kotlin `Int` arithmetic that differs from Dafny's unbounded `int`:
 * 32-bit `abs` (which leaves `Int.MIN_VALUE` negative) and division that
 * truncates toward zero.
 */
module KotlinInt {

  const INT_MIN: int := -0x8000_0000
  const INT_MAX: int := 0x7fff_ffff

  /** A value of Kotlin type `Int`. */
  type Int32 = x: int | INT_MIN <= x <= INT_MAX

  /** `kotlin.math.abs` on `Int`: two's-complement negation, so `abs(Int.MIN_VALUE)` overflows back to itself. */
  function Abs(v: Int32): (r: Int32)
    ensures v != INT_MIN ==> r >= 0 && (r == v || r == -v)
    ensures v == INT_MIN ==> r == INT_MIN
  {
    if v >= 0 then v else if v == INT_MIN then INT_MIN else -v
  }

  /** Kotlin `a / 10` on `Int`: the quotient truncated toward zero (Dafny's `/` is Euclidean). */
  function Div10(a: int): (q: int)
    ensures a >= 0 ==> 0 <= q && 10 * q <= a < 10 * q + 10
    ensures a < 0 ==> q <= 0 && 10 * q - 10 < a <= 10 * q
  {
    if a >= 0 then a / 10 else -((-a) / 10)
  }

  /** Truncating division by ten is monotone: a larger dividend never gives a smaller quotient. */
  lemma Div10Monotone(a: int, b: int)
    requires a <= b
    ensures Div10(a) <= Div10(b)
  {
  }
}
