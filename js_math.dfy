/**
 * The JavaScript arithmetic that the bonding-curve service, the trade bounds,
 * the formatting helpers and the event indexer rely on, written out over
 * Dafny's unbounded integers and exact reals.
 */
module JsMath {

  /** `a / b` on BigInt operands: the quotient is truncated toward zero. */
  function TruncDiv(a: int, b: int): (q: int)
    requires b > 0
    ensures a >= 0 ==> 0 <= q && q * b <= a < q * b + b
    ensures a < 0 ==> q <= 0 && q * b - b < a <= q * b
  {
    if a >= 0 then
      assert a == (a / b) * b + a % b && 0 <= a % b < b;
      a / b
    else
      assert -a == ((-a) / b) * b + (-a) % b && 0 <= (-a) % b < b;
      -((-a) / b)
  }

  /** `BigInt(x)` accepts a number only when it has no fractional part. */
  predicate IsInteger(x: real) {
    x.Floor as real == x
  }

  /** `Math.floor(x)`. */
  function Floor(x: real): (r: int)
    ensures r as real <= x < r as real + 1.0
  {
    x.Floor
  }

  /** `Math.ceil(a / b)` for integers, with `b > 0`. */
  function CeilDiv(a: int, b: int): (r: int)
    requires b > 0
    ensures (r - 1) * b < a <= r * b
  {
    -((-a) / b)
  }
}
