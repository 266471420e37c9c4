/**
 Fixed-point arithmetic of the protocol. A ray is 10^27. Products are taken in 256 bits (here:
 unbounded), then rounded in one of three directions, then checked to fit 128 bits.
 */
module RayMath {
  import opened Common

  const RAY: nat := 1_000_000_000_000_000_000_000_000_000
  const HALF_RAY: nat := 500_000_000_000_000_000_000_000_000
  const WAD: nat := 1_000_000_000_000_000_000
  const BASIS_POINTS: nat := 10_000
  const U128_MAX: nat := 0xFFFF_FFFF_FFFF_FFFF_FFFF_FFFF_FFFF_FFFF
  const I128_MAX: nat := 0x7FFF_FFFF_FFFF_FFFF_FFFF_FFFF_FFFF_FFFF

  /** The conversion back to 128 bits. */
  function Fit(n: nat): Result<nat> {
    if n <= U128_MAX then Ok(n) else Err(MathOverflow)
  }

  /** The conversion to a signed 128-bit amount, which panics above its maximum. */
  function FitSigned(n: nat): Result<nat> {
    if n <= I128_MAX then Ok(n) else Err(MathOverflow)
  }

  /** A product of counts is a count; named so that a proof need not rediscover it. */
  function Times(a: nat, b: nat): nat {
    a * b
  }

  /** Half-up product: within half a ray of the exact product, ties rounding up. */
  function MulNear(a: nat, b: nat): (r: nat)
    ensures a * b - HALF_RAY < r * RAY <= a * b + HALF_RAY
  {
    (a * b + HALF_RAY) / RAY
  }

  /** Floor product: never above the exact product. */
  function MulDown(a: nat, b: nat): (r: nat)
    ensures a * b - RAY < r * RAY <= a * b
  {
    a * b / RAY
  }

  /** Euclid's bounds, stated once so that no proof below divides by a variable. */
  lemma QuotientBounds(n: nat, d: nat)
    requires d > 0
    ensures (n / d) * d <= n < (n / d) * d + d
  {
    assert n == (n / d) * d + n % d;
  }

  function Quotient(n: nat, d: nat): (q: nat)
    requires d > 0
    ensures q * d <= n < q * d + d
  {
    QuotientBounds(n, d);
    n / d
  }

  /** Half-up quotient: within half a divisor of the exact quotient. */
  function DivNear(a: nat, b: nat): (r: nat)
    requires b > 0
    ensures 2 * (a * RAY) - b < 2 * (r * b) <= 2 * (a * RAY) + b
  {
    Quotient(a * RAY + b / 2, b)
  }

  /** Floor quotient. */
  function DivDown(a: nat, b: nat): (r: nat)
    requires b > 0
    ensures a * RAY - b < r * b <= a * RAY
  {
    Quotient(a * RAY, b)
  }

  /** Ceiling quotient. */
  function DivUp(a: nat, b: nat): (r: nat)
    requires b > 0
    ensures a * RAY <= r * b < a * RAY + b
  {
    Quotient(a * RAY + b - 1, b)
  }

  function RayMul(a: nat, b: nat): Result<nat> {
    Fit(MulNear(a, b))
  }

  function RayMulDown(a: nat, b: nat): Result<nat> {
    Fit(MulDown(a, b))
  }

  function RayDiv(a: nat, b: nat): Result<nat> {
    if b == 0 then Err(MathOverflow) else Fit(DivNear(a, b))
  }

  function RayDivDown(a: nat, b: nat): Result<nat> {
    if b == 0 then Err(MathOverflow) else Fit(DivDown(a, b))
  }

  function RayDivUp(a: nat, b: nat): Result<nat> {
    if b == 0 then Err(MathOverflow) else Fit(DivUp(a, b))
  }

  /** Percentages in basis points, rounded up; these work in 128 bits and overflow there. */
  function PercentMulUp(value: nat, bps: nat): (r: Result<nat>)
    ensures r.Ok? ==> value * bps <= r.value * BASIS_POINTS < value * bps + BASIS_POINTS
  {
    var prod :- Fit(value * bps);
    var sum :- Fit(prod + BASIS_POINTS - 1);
    Ok(sum / BASIS_POINTS)
  }

  /** Percentages in basis points, rounded half up. */
  function PercentMul(value: nat, bps: nat): (r: Result<nat>)
    ensures r.Ok? ==> value * bps - 5_000 < r.value * BASIS_POINTS <= value * bps + 5_000
  {
    var prod :- Fit(value * bps);
    var sum :- Fit(prod + 5_000);
    Ok(sum / BASIS_POINTS)
  }

  // ------------------------------------------------------------------ order

  lemma ProductIsNat(a: nat, b: nat)
    ensures a * b >= 0
  {
  }

  lemma MulMonotone(a: nat, a': nat, b: nat, b': nat)
    requires a <= a' && b <= b'
    ensures a * b <= a' * b'
  {
    ProductIsNat(a' - a, b);
    ProductIsNat(a', b' - b);
    assert (a' - a) * b == a' * b - a * b && a' * (b' - b) == a' * b' - a' * b;
  }

  /** What lies within h of p still does after both are multiplied. */
  lemma SpreadTimes(p: int, x: int, h: int, w: nat)
    requires p - h <= x <= p + h
    ensures p * w - h * w <= x * w <= p * w + h * w
  {
    ProductIsNat(x - (p - h), w);
    ProductIsNat(p + h - x, w);
    assert (x - (p - h)) * w == x * w - p * w + h * w;
    assert (p + h - x) * w == p * w + h * w - x * w;
  }

  lemma MulStrict(q1: int, q2: int, d: int)
    requires d > 0 && q1 > q2
    ensures q1 * d >= q2 * d + d
  {
    ProductIsNat(q1 - q2 - 1, d);
    assert (q1 - q2 - 1) * d == q1 * d - q2 * d - d;
  }

  /** Quotients of one divisor compare as soon as the products do, up to less than one divisor. */
  lemma CompareQuotients(q1: int, q2: int, d: int)
    requires d > 0 && q1 * d < q2 * d + d
    ensures q1 <= q2
  {
    if q1 > q2 {
      MulStrict(q1, q2, d);
    }
  }

  lemma MulNearMonotone(a: nat, a': nat, b: nat, b': nat)
    requires a <= a' && b <= b'
    ensures MulNear(a, b) <= MulNear(a', b')
  {
    MulMonotone(a, a', b, b');
  }

  /** Multiplying by a factor of at least one ray never loses anything; by at most one ray, never gains. */
  lemma MulNearByRay(a: nat, factor: nat)
    ensures factor >= RAY ==> MulNear(a, factor) >= a
    ensures factor <= RAY ==> MulNear(a, factor) <= a
    ensures factor == RAY ==> MulNear(a, factor) == a
  {
    if factor >= RAY {
      MulMonotone(a, a, RAY, factor);
    }
    if factor <= RAY {
      MulMonotone(a, a, factor, RAY);
    }
  }

  /** Two half-up quotients of different divisors compare as their exact ratios n/b do. */
  lemma RoundedOrder(q: int, q': int, n: int, n': int, b: int, b': int)
    requires b > 0 && b' > 0 && n * b' <= n' * b
    requires 2 * (q * b) <= 2 * n + b
    requires 2 * n' - b' < 2 * (q' * b')
    ensures q <= q'
  {
    var p := b * b';
    assert p > 0;
    calc {
      2 * (q * p);
      == { assert q * p == (q * b) * b'; }
      (2 * (q * b)) * b';
      <= { assert (2 * n + b - 2 * (q * b)) * b' >= 0; }
      (2 * n + b) * b';
      ==
      2 * (n * b') + p;
      <=
      2 * (n' * b) + p;
      == { assert (2 * n' - b') * b == 2 * (n' * b) - b' * b; }
      (2 * n' - b') * b + 2 * p;
      < { MulStrict(2 * (q' * b'), 2 * n' - b', b); }
      (2 * (q' * b')) * b + 2 * p;
      == { assert (q' * b') * b == q' * p; }
      2 * (q' * p) + 2 * p;
    }
    CompareQuotients(q, q', p);
  }

  /** The half-up quotient respects the order of the exact ratios a/b, even across different divisors. */
  lemma DivNearMonotone(a: nat, b: nat, a': nat, b': nat)
    requires b > 0 && b' > 0
    requires a * b' <= a' * b
    ensures DivNear(a, b) <= DivNear(a', b')
  {
    assert (a * RAY) * b' == RAY * (a * b');
    assert (a' * RAY) * b == RAY * (a' * b);
    RoundedOrder(DivNear(a, b), DivNear(a', b'), a * RAY, a' * RAY, b, b');
  }

  /** A part divided by its whole is at most one ray, and a whole by itself is exactly one ray. */
  lemma DivNearShare(a: nat, b: nat)
    requires 0 < b && a <= b
    ensures DivNear(a, b) <= RAY
    ensures a == b ==> DivNear(a, b) == RAY
  {
    var q := DivNear(a, b);
    assert a * RAY <= b * RAY;
    CompareQuotients(q, RAY, b);
    if a == b {
      CompareQuotients(RAY, q, b);
    }
  }
}
