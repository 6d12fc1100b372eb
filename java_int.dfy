/**
 * Java integer semantics the model depends on: narrowing a `long` to an `int` keeps the low
 * 32 bits as a two's-complement value, `/` on `int` truncates toward zero (Dafny's `/` is
 * Euclidean), and `-` on `long` wraps around modulo 2^64.
 */
module JavaInt {
  const TwoTo31: int := 0x8000_0000
  const TwoTo32: int := 0x1_0000_0000
  const TwoTo63: int := 0x8000_0000_0000_0000
  const TwoTo64: int := 0x1_0000_0000_0000_0000

  predicate IsInt32(x: int) {
    -TwoTo31 <= x < TwoTo31
  }

  predicate IsInt64(x: int) {
    -TwoTo63 <= x < TwoTo63
  }

  /** The values of a Java `long`. */
  type Long = x: int | IsInt64(x)

  /** `a - b` on `long`: the unique 64-bit value congruent to the exact difference modulo 2^64. */
  function LongSub(a: int, b: int): (r: Long)
    ensures (a - b - r) % TwoTo64 == 0
    ensures IsInt64(a - b) ==> r == a - b
  {
    (a - b + TwoTo63) % TwoTo64 - TwoTo63
  }

  function Abs(x: int): nat {
    if x < 0 then -x else x
  }

  /** `(int) x` for a `long` x: the unique 32-bit value congruent to x modulo 2^32. */
  function LongToInt(x: int): (r: int)
    ensures IsInt32(r)
    ensures (x - r) % TwoTo32 == 0
    ensures IsInt32(x) ==> r == x
  {
    (x + TwoTo31) % TwoTo32 - TwoTo31
  }

  /**
   * Java's `a / b`: the quotient rounded toward zero, so the remainder `a - q * b` is smaller
   * than `b` in magnitude and never has the opposite sign of `a`.
   */
  function JavaDiv(a: int, b: int): (q: int)
    requires b != 0
    ensures var rem := a - q * b; Abs(rem) < Abs(b) && (rem == 0 || (rem < 0 <==> a < 0))
  {
    var m := Abs(a) / Abs(b);
    if (a < 0) == (b < 0) then m else -m
  }
}
