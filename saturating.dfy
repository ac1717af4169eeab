/** Rust's `i32` and its saturating arithmetic (`saturating_add`,
    `saturating_sub`, `saturating_mul`): the exact integer result, clamped
    to the representable range instead of wrapping or panicking. */
module Saturating {

  const MIN: int := -0x8000_0000
  const MAX: int := 0x7fff_ffff

  /** The values of a Rust `i32`. */
  type I32 = x: int | MIN <= x <= MAX

  predicate InRange(x: int) {
    MIN <= x <= MAX
  }

  /** Distance between two integers. */
  function Dist(a: int, b: int): nat {
    if a <= b then b - a else a - b
  }

  /** The representable value nearest to `x`: `x` itself when it fits, the
      bound it overshoots otherwise. */
  function Clamp(x: int): (r: I32)
    ensures InRange(x) ==> r == x
    ensures forall y :: InRange(y) ==> Dist(r, x) <= Dist(y, x)
  {
    if x > MAX then MAX else if x < MIN then MIN else x
  }

  function SatAdd(a: I32, b: I32): I32 {
    Clamp(a + b)
  }

  function SatSub(a: I32, b: I32): I32 {
    Clamp(a - b)
  }

  function SatMul(a: I32, b: I32): I32 {
    Clamp(a * b)
  }
}
