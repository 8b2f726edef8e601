/**
 * The bounds the client puts on a trade before it signs it: the slippage
 * floor and ceiling on quoted amounts (lib/memecore/swap-service.ts lines
 * 68-70), the twenty-minute deadline (swap-service.ts line 73 and
 * lib/memecore/pool-creator.ts line 173) and the 1% liquidity minimum
 * (pool-creator.ts lines 184-185).
 */
module TradeBounds {
  import JsMath

  /** `slippageTolerance = 1`: the tolerance when the caller gives none, in percent. */
  const DEFAULT_TOLERANCE: real := 1.0

  /** Seconds from now until a router call expires: `60 * 20`. */
  const DEADLINE_SECONDS: int := 1200

  /**
   * `x * f / d` with BigInt division, for a non-negative factor: the
   * quotient rounds down, and it falls on the side of `x` that `f` falls
   * on of `d`.
   */
  lemma ScaledQuotientBounds(x: nat, f: int, d: int)
    requires d > 0 && f >= 0
    ensures var q := JsMath.TruncDiv(x * f, d);
      && 0 <= q && q * d <= x * f < q * d + d
      && (f <= d ==> q <= x)
      && (f >= d ==> x <= q)
  {
    NonNegativeProduct(x, f);
    var q := JsMath.TruncDiv(x * f, d);
    if f <= d {
      MulMonotone(f, d, x);
      CancelFactor(q, x, d);
    }
    if f >= d {
      MulMonotone(d, f, x);
      CancelFactorBelow(x, q, d);
    }
  }

  lemma NonNegativeProduct(x: nat, f: int)
    requires f >= 0
    ensures x * f >= 0
  {
  }

  lemma MulMonotone(a: int, b: int, x: nat)
    requires a <= b
    ensures x * a <= x * b
  {
  }

  lemma CancelFactor(q: int, x: int, d: int)
    requires d > 0 && q * d <= x * d
    ensures q <= x
  {
  }

  lemma CancelFactorBelow(x: int, q: int, d: int)
    requires d > 0 && x * d < q * d + d
    ensures x <= q
  {
    assert x * d < (q + 1) * d;
  }

  /** `Math.floor(percent * 100)`: a percentage in basis points, rounded down. */
  function BasisPoints(percent: real): (bps: int)
    ensures bps as real <= percent * 100.0 < bps as real + 1.0
  {
    JsMath.Floor(percent * 100.0)
  }

  /** The most a buy may spend: the quoted cost raised by the tolerance, rounded down. */
  function MaxIn(cost: nat, s: real): (maxIn: int)
    ensures s >= -100.0 ==>
      0 <= maxIn && maxIn * 10000 <= cost * BasisPoints(100.0 + s) < maxIn * 10000 + 10000
    ensures s >= 0.0 ==> cost <= maxIn
  {
    var f := BasisPoints(100.0 + s);
    if f >= 0 then ScaledQuotientBounds(cost, f, 10000); JsMath.TruncDiv(cost * f, 10000)
    else JsMath.TruncDiv(cost * f, 10000)
  }

  /**
   * The least a trade must return: the quote lowered by the tolerance,
   * toward zero. Above 100% the bound is zero or negative, and a negative
   * one is no `uint256` argument.
   */
  function MinOut(quote: nat, s: real): (minOut: int)
    ensures s <= 100.0 ==>
      0 <= minOut && minOut * 10000 <= quote * BasisPoints(100.0 - s) < minOut * 10000 + 10000
    ensures 0.0 <= s <= 100.0 ==> minOut <= quote
    ensures s > 100.0 ==> minOut <= 0
  {
    var f := BasisPoints(100.0 - s);
    if f >= 0 then ScaledQuotientBounds(quote, f, 10000); JsMath.TruncDiv(quote * f, 10000)
    else NegativeQuotient(quote, f); JsMath.TruncDiv(quote * f, 10000)
  }

  lemma NegativeQuotient(quote: nat, f: int)
    requires f < 0
    ensures JsMath.TruncDiv(quote * f, 10000) <= 0
  {
    assert quote * f <= 0;
  }

  /** BigInt division by a positive divisor never reverses the order of two dividends. */
  lemma TruncDivMonotone(a: int, b: int, d: int)
    requires d > 0 && a <= b
    ensures JsMath.TruncDiv(a, d) <= JsMath.TruncDiv(b, d)
  {
    var qa, qb := JsMath.TruncDiv(a, d), JsMath.TruncDiv(b, d);
    if qa > qb {
      if a >= 0 {
        CancelFactorBelow(qa, qb, d);
      } else if b >= 0 {
      } else {
        CancelFactorBelow(qa, qb, d);
      }
    }
  }

  /**
   * A wider tolerance never tightens a bound: the floor on what comes back
   * only falls, and the ceiling on what is spent only rises.
   */
  lemma {:induction false} WiderToleranceLooser(quote: nat, s1: real, s2: real)
    requires s1 <= s2
    ensures MinOut(quote, s2) <= MinOut(quote, s1)
    ensures MaxIn(quote, s1) <= MaxIn(quote, s2)
  {
    var lo1, lo2 := BasisPoints(100.0 - s1), BasisPoints(100.0 - s2);
    assert lo2 <= lo1;
    MulMonotone(lo2, lo1, quote);
    TruncDivMonotone(quote * lo2, quote * lo1, 10000);
    var hi1, hi2 := BasisPoints(100.0 + s1), BasisPoints(100.0 + s2);
    assert hi1 <= hi2;
    MulMonotone(hi1, hi2, quote);
    TruncDivMonotone(quote * hi1, quote * hi2, 10000);
  }

  /**
   * `Math.floor(Date.now() / 1000) + 60 * 20`: twenty minutes after the
   * current whole second, from a clock in milliseconds.
   */
  function Deadline(nowMs: nat): (deadline: int)
    ensures (deadline - DEADLINE_SECONDS) * 1000 <= nowMs < (deadline - DEADLINE_SECONDS) * 1000 + 1000
    ensures deadline >= DEADLINE_SECONDS
  {
    JsMath.Floor(nowMs as real / 1000.0) + DEADLINE_SECONDS
  }

  /** `x - x / 100n`: the amount less 1%, the 1% rounded down. */
  function LiquidityMin(x: nat): (m: nat)
    ensures m <= x
    ensures 99 * x <= 100 * m < 99 * x + 100
  {
    x - x / 100
  }
}
