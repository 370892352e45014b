/** Fixed-width integers of the source and Rust's integer operators on them. */
module Ints {

  const I32_MIN: int := -0x8000_0000
  const I32_MAX: int := 0x7FFF_FFFF
  const U8_MIN: int := 0
  const U8_MAX: int := 0xFF

  /** Rust's `i32`. */
  type I32 = x: int | I32_MIN <= x <= I32_MAX

  /** Rust's `u8`. */
  type U8 = x: int | U8_MIN <= x <= U8_MAX

  /** Magnitude of an integer. */
  function Abs(a: int): nat
  {
    if a < 0 then -a else a
  }

  /** Rust's `/` on signed integers: the quotient rounded toward zero, that is,
      the floored quotient of the magnitudes carrying the sign of the dividend.
      (Dafny's own `/` is Euclidean and rounds a negative dividend down.) */
  function TruncDiv(a: int, d: int): (q: int)
    requires d > 0
    ensures Abs(q) == Abs(a) / d
    ensures q != 0 ==> (q < 0 <==> a < 0)
  {
    if a >= 0 then a / d else -((-a) / d)
  }

  /** Rust's `%` on signed integers: what `TruncDiv` leaves over. On a
      non-negative dividend it is Dafny's (floored) remainder. */
  function TruncRem(a: int, d: int): (r: int)
    requires d > 0
    ensures a >= 0 ==> r == a % d
  {
    a - TruncDiv(a, d) * d
  }
}
