/** JavaScript's integer arithmetic where it differs from Dafny's: `%` keeps the sign of the
    dividend, `Math.floor(a / b)` and `Math.round(a / b)` on integral operands. Numbers are
    modelled as unbounded integers; none of the core's values come near 2^53. */
module JsMath {

  /** `Math.floor(a / b)` for a positive divisor. */
  function FloorDiv(a: int, b: int): (q: int)
    requires b > 0
    ensures q * b <= a < (q + 1) * b
  {
    a / b
  }

  /** Division truncated toward zero, the quotient that goes with JavaScript's `%`. */
  function TruncDiv(a: int, b: int): int
    requires b > 0
  {
    if a >= 0 then a / b else -((-a) / b)
  }

  /** `a % b` in JavaScript: truncating, so the remainder has the sign of `a`. */
  function Rem(a: int, b: int): (r: int)
    requires b > 0
    ensures -b < r < b
    ensures a >= 0 ==> r >= 0
    ensures a <= 0 ==> r <= 0
    ensures a == TruncDiv(a, b) * b + r
  {
    if a >= 0 then a % b
    else
      var q, m := (-a) / b, (-a) % b;
      assert -a == q * b + m;
      -m
  }

  /** `Math.round(a / b)` for a positive divisor: the nearest integer, halves rounded up. */
  function RoundDiv(a: int, b: int): (q: int)
    requires b > 0
    ensures (2 * q - 1) * b <= 2 * a < (2 * q + 1) * b
  {
    (2 * a + b) / (2 * b)
  }
}
