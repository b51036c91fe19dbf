/** Conversions from reals to integers, the smaller and the larger of two integers, and the sign of a product. */
module Numbers {

  /** `int(x)`: towards zero. */
  function Trunc(x: real): int { if 0.0 <= x then x.Floor else -(-x).Floor }

  /** `math.ceil(x)`. */
  function Ceil(x: real): int { -(-x).Floor }

  function MaxInt(a: int, b: int): int { if a <= b then b else a }

  function MinInt(a: int, b: int): int { if a <= b then a else b }

  /** A product under a name, so that proofs can treat it as one quantity. */
  function Mul(a: real, b: real): real { a * b }

  lemma Product(x: real, y: real)
    requires 0.0 <= x && 0.0 <= y
    ensures 0.0 <= x * y
  {
  }
}
