/**
 Interest factors over a time span: linear for suppliers, a three-term series for borrowers, and
 the index update both feed.
 */
module Interest {
  import opened Common
  import opened RayMath

  const SECONDS_PER_YEAR: nat := 31_536_000

  function LinearFactor(rate: nat, last: nat, now: nat): Result<nat> {
    if now < last then
      Err(MathOverflow)
    else
      var prod :- Fit(rate * (now - last));
      Fit(RAY + prod / SECONDS_PER_YEAR)
  }

  /** One higher term of the series: binomial-style coefficient times a power of the rate. */
  function SeriesTerm(coefficient: nat, power: nat, divisor: nat): Result<nat>
    requires divisor > 0
  {
    Fit(coefficient * power / divisor)
  }

  function CompoundFactor(rate: nat, last: nat, now: nat): Result<nat> {
    if now < last then
      Err(MathOverflow)
    else if now == last then
      Ok(RAY)
    else
      var exp := now - last;
      var expMinusOne := exp - 1;
      var expMinusTwo := if exp > 1 then exp - 2 else 0;
      var first :- Fit(rate * exp / SECONDS_PER_YEAR);
      var square :- RayMul(rate, rate);
      var basePowerTwo := square / (SECONDS_PER_YEAR * SECONDS_PER_YEAR);
      var cube :- RayMul(basePowerTwo, rate);
      var basePowerThree := cube / SECONDS_PER_YEAR;
      var second :- SeriesTerm(Times(exp, expMinusOne), basePowerTwo, 2);
      var third :- SeriesTerm(Times(Times(exp, expMinusOne), expMinusTwo), basePowerThree, 6);
      var s1 :- Fit(RAY + first);
      var s2 :- Fit(s1 + second);
      Fit(s2 + third)
  }

  /** The series never falls below its first two terms, so borrowers pay at least linear interest. */
  lemma CompoundAtLeastLinear(rate: nat, last: nat, now: nat)
    requires CompoundFactor(rate, last, now).Ok?
    ensures CompoundFactor(rate, last, now).value >= RAY + rate * (now - last) / SECONDS_PER_YEAR
    ensures CompoundFactor(rate, last, now).value >= RAY
  {
  }

  /** At a lower rate the linear factor is below the compound one over the same span. */
  lemma LinearBelowCompound(low: nat, high: nat, last: nat, now: nat)
    requires low <= high
    requires LinearFactor(low, last, now).Ok? && CompoundFactor(high, last, now).Ok?
    ensures RAY <= LinearFactor(low, last, now).value <= CompoundFactor(high, last, now).value
  {
    CompoundAtLeastLinear(high, last, now);
    MulMonotone(low, high, now - last, now - last);
  }

  // ------------------------------------------------------------------ what the factors approximate

  /** A span of nothing earns nothing, at any rate. */
  lemma NoSpanNoInterest(rate: nat, now: nat)
    ensures LinearFactor(rate, now, now) == Ok(RAY) && CompoundFactor(rate, now, now) == Ok(RAY)
  {
    assert rate * 0 == 0;
  }

  /** The linear factor is one ray and the interest of the span, rounded down. */
  lemma LinearIsSimple(rate: nat, last: nat, now: nat)
    requires LinearFactor(rate, last, now).Ok?
    ensures var interest := LinearFactor(rate, last, now).value - RAY;
            interest * SECONDS_PER_YEAR <= rate * (now - last) < interest * SECONDS_PER_YEAR + SECONDS_PER_YEAR
  {
  }

  /** t (t - 1) and t (t - 1) (t - 2), the falling powers of the binomial series. */
  function Pairs(t: nat): nat {
    if t == 0 then 0 else t * (t - 1)
  }

  function Triples(t: nat): nat {
    if t <= 1 then 0 else t * (t - 1) * (t - 2)
  }

  /**
   The series rate t/S + rate^2 t(t-1)/(2 RAY S^2) + rate^3 t(t-1)(t-2)/(6 RAY^2 S^3) over the common
   denominator 6 RAY^2 S^3, with S the seconds in a year.
   */
  function SeriesNumerator(rate: nat, t: nat): int {
    6 * (RAY * RAY) * (SECONDS_PER_YEAR * SECONDS_PER_YEAR) * (rate * t)
    + 3 * RAY * SECONDS_PER_YEAR * (rate * rate * Pairs(t))
    + rate * rate * rate * Triples(t)
  }

  const SERIES_DENOMINATOR: nat :=
    6 * ((RAY * RAY) * (SECONDS_PER_YEAR * SECONDS_PER_YEAR * SECONDS_PER_YEAR))

  /**
   What the floors can lose or add, over the same denominator: 3 + t(t-1) + t(t-1)(t-2)/3 (1 + rate/(RAY S)) units in
   the last digit.
   */
  function SeriesError(rate: nat, t: nat): int {
    SERIES_DENOMINATOR * (3 + Pairs(t))
    + 2 * (SECONDS_PER_YEAR * SECONDS_PER_YEAR * RAY) * (Triples(t) * (SECONDS_PER_YEAR * RAY + rate))
  }

  /** A rounded quotient x / RAY divided down again: b stands for x / (d RAY), up to half a ray or one divisor. */
  lemma FlooredPower(x: nat, a: nat, b: nat, d: nat)
    requires d > 0 && x - HALF_RAY < a * RAY <= x + HALF_RAY && b == a / d
    ensures 0 <= x - b * (d * RAY) + HALF_RAY <= 2 * HALF_RAY + d * RAY
  {
    QuotientBounds(a, d);
    assert b * (d * RAY) == (b * d) * RAY;
    assert (b * d + d) * RAY == b * (d * RAY) + d * RAY;
    MulMonotone(b * d, a, RAY, RAY);
    MulMonotone(a, b * d + d, RAY, RAY);
  }

  lemma MulBounds(n: nat, low: int, x: int, high: int)
    requires low <= x <= high
    ensures n * low <= n * x <= n * high
  {
    assert n * (x - low) >= 0 && n * (high - x) >= 0;
  }

  lemma CoefficientsAgree(ray: nat, years: nat)
    ensures 3 * ray * years * (years * years * ray) == 3 * ((ray * ray) * (years * years * years))
  {
  }

  /** The second term: what its two floors leave out. */
  lemma SecondTerm(ray: nat, years: nat, square: nat, pairs: nat, b: nat, v: nat)
    ensures 3 * ray * years * (square * pairs)
         == 6 * ((ray * ray) * (years * years * years)) * v
            + 3 * ray * years * (pairs * (square - b * (years * years * ray)))
            + 3 * ((ray * ray) * (years * years * years)) * (pairs * b - 2 * v)
  {
    var (x, k, m) := (square - b * (years * years * ray), 3 * ray * years, 3 * ((ray * ray) * (years * years * years)));
    assert square * pairs == pairs * x + (pairs * b) * (years * years * ray);
    assert k * (square * pairs) == k * (pairs * x) + k * ((pairs * b) * (years * years * ray));
    assert k * ((pairs * b) * (years * years * ray)) == m * (pairs * b) by {
      CoefficientsAgree(ray, years);
      assert k * ((pairs * b) * (years * years * ray)) == (k * (years * years * ray)) * (pairs * b);
    }
    assert m * (pairs * b) == m * (2 * v) + m * (pairs * b - 2 * v);
  }

  /** The cube, one base power at a time. */
  lemma CubeSplits(ray: nat, years: nat, rate: nat, b: nat, d: nat)
    ensures rate * rate * rate
         == rate * (rate * rate - b * (years * years * ray))
            + (years * years * ray) * (b * rate - d * (years * ray))
            + (ray * ray) * (years * years * years) * d
  {
    var (k, m) := (years * years * ray, (ray * ray) * (years * years * years));
    assert rate * (rate * rate) == rate * (rate * rate - b * k) + rate * (b * k);
    assert rate * (b * k) == k * (b * rate - d * (years * ray)) + k * (d * (years * ray));
    assert k * (d * (years * ray)) == m * d by {
      assert k * (years * ray) == m;
      assert k * (d * (years * ray)) == (k * (years * ray)) * d;
    }
  }

  lemma Distribute(x: int, k: nat, y: int, m: nat, d: nat, n: nat, w: nat)
    ensures (x + k * y + m * d) * n == n * x + k * (n * y) + m * (n * d - 6 * w) + 6 * m * w
  {
    assert (k * y) * n == k * (n * y);
    assert (m * d) * n == m * (n * d);
    assert m * (n * d) == m * (6 * w) + m * (n * d - 6 * w);
  }

  /** The third term, whose base power is taken from the second one's. */
  lemma ThirdTerm(ray: nat, years: nat, rate: nat, triples: nat, b: nat, d: nat, w: nat)
    ensures rate * rate * rate * triples
         == 6 * ((ray * ray) * (years * years * years)) * w
            + triples * (rate * (rate * rate - b * (years * years * ray)))
            + (years * years * ray) * (triples * (b * rate - d * (years * ray)))
            + (ray * ray) * (years * years * years) * (triples * d - 6 * w)
  {
    CubeSplits(ray, years, rate, b, d);
    Distribute(rate * (rate * rate - b * (years * years * ray)), years * years * ray, b * rate - d * (years * ray),
               (ray * ray) * (years * years * years), d, triples, w);
  }

  /** The first term. */
  lemma FirstTerm(ray: nat, years: nat, prod: nat, u: nat)
    ensures 6 * (ray * ray) * (years * years) * prod
         == 6 * ((ray * ray) * (years * years * years)) * u + 6 * (ray * ray) * (years * years) * (prod - u * years)
  {
    var k := 6 * (ray * ray) * (years * years);
    assert k * prod == k * (u * years) + k * (prod - u * years);
    assert k * (u * years) == (k * years) * u;
    assert k * years == 6 * ((ray * ray) * (years * years * years));
  }

  lemma FirstIsClose(prod: nat, u: nat)
    requires 0 <= prod - u * SECONDS_PER_YEAR < SECONDS_PER_YEAR
    ensures SERIES_DENOMINATOR * u <= 6 * (RAY * RAY) * (SECONDS_PER_YEAR * SECONDS_PER_YEAR) * prod
         <= SERIES_DENOMINATOR * u + SERIES_DENOMINATOR
  {
    FirstTerm(RAY, SECONDS_PER_YEAR, prod, u);
  }

  lemma SecondIsClose(square: nat, pairs: nat, b: nat, v: nat)
    requires 0 <= square - b * (SECONDS_PER_YEAR * SECONDS_PER_YEAR * RAY) + HALF_RAY
               <= 2 * HALF_RAY + SECONDS_PER_YEAR * SECONDS_PER_YEAR * RAY
    requires 0 <= pairs * b - 2 * v < 2
    ensures SERIES_DENOMINATOR * v <= 3 * RAY * SECONDS_PER_YEAR * (square * pairs) + SERIES_DENOMINATOR * pairs
    ensures 3 * RAY * SECONDS_PER_YEAR * (square * pairs)
         <= SERIES_DENOMINATOR * v + SERIES_DENOMINATOR * pairs + SERIES_DENOMINATOR
  {
    var x := square - b * (SECONDS_PER_YEAR * SECONDS_PER_YEAR * RAY);
    SecondTerm(RAY, SECONDS_PER_YEAR, square, pairs, b, v);
    MulBounds(pairs, 0 - HALF_RAY, x, HALF_RAY + SECONDS_PER_YEAR * SECONDS_PER_YEAR * RAY);
  }

  lemma TwiceBounded(n: nat, m: nat, low: int, x: int, high: int)
    requires low <= x <= high
    ensures low * (n * m) <= n * (m * x) <= high * (n * m)
  {
    MulBounds(n * m, low, x, high);
    assert n * (m * x) == (n * m) * x;
  }

  /** The third term's roundings, with every product by now an atom. */
  lemma ThirdAdds(product: nat, triples: nat, first: int, second: int, last: int)
    requires -1 * HALF_RAY * product <= first <= (HALF_RAY + SECONDS_PER_YEAR * SECONDS_PER_YEAR * RAY) * product
    requires -1 * HALF_RAY * triples <= second <= (HALF_RAY + SECONDS_PER_YEAR * RAY) * triples
    requires 0 <= last < 6
    ensures var error := 2 * (SECONDS_PER_YEAR * SECONDS_PER_YEAR * RAY) * (SECONDS_PER_YEAR * RAY * triples + product);
            var left := first + (SECONDS_PER_YEAR * SECONDS_PER_YEAR * RAY) * second
                        + (RAY * RAY) * (SECONDS_PER_YEAR * SECONDS_PER_YEAR * SECONDS_PER_YEAR) * last;
            0 <= left + error && left <= error + SERIES_DENOMINATOR
  {
  }

  lemma SumTimes(triples: nat, rate: nat)
    ensures triples * (SECONDS_PER_YEAR * RAY + rate) == SECONDS_PER_YEAR * RAY * triples + triples * rate
  {
  }

  lemma ThirdIsClose(rate: nat, triples: nat, b: nat, d: nat, w: nat)
    requires 0 <= rate * rate - b * (SECONDS_PER_YEAR * SECONDS_PER_YEAR * RAY) + HALF_RAY
               <= 2 * HALF_RAY + SECONDS_PER_YEAR * SECONDS_PER_YEAR * RAY
    requires 0 <= b * rate - d * (SECONDS_PER_YEAR * RAY) + HALF_RAY <= 2 * HALF_RAY + SECONDS_PER_YEAR * RAY
    requires 0 <= triples * d - 6 * w < 6
    ensures var error := 2 * (SECONDS_PER_YEAR * SECONDS_PER_YEAR * RAY) * (triples * (SECONDS_PER_YEAR * RAY + rate));
            && SERIES_DENOMINATOR * w <= rate * rate * rate * triples + error
            && rate * rate * rate * triples <= SERIES_DENOMINATOR * w + error + SERIES_DENOMINATOR
  {
    var x := rate * rate - b * (SECONDS_PER_YEAR * SECONDS_PER_YEAR * RAY);
    var y := b * rate - d * (SECONDS_PER_YEAR * RAY);
    var most := HALF_RAY + SECONDS_PER_YEAR * SECONDS_PER_YEAR * RAY;
    ThirdTerm(RAY, SECONDS_PER_YEAR, rate, triples, b, d, w);
    MulBounds(triples, 0 - HALF_RAY, y, HALF_RAY + SECONDS_PER_YEAR * RAY);
    TwiceBounded(triples, rate, 0 - HALF_RAY, x, most);
    SumTimes(triples, rate);
    ThirdAdds(triples * rate, triples, triples * (rate * x), triples * y, triples * d - 6 * w);
  }

  /** The three rounded terms against the exact series, from the rounding of each quantity on the way. */
  lemma TermsAreClose(rate: nat, t: nat, u: nat, b: nat, v: nat, d: nat, w: nat)
    requires 0 <= rate * t - u * SECONDS_PER_YEAR < SECONDS_PER_YEAR
    requires 0 <= rate * rate - b * (SECONDS_PER_YEAR * SECONDS_PER_YEAR * RAY) + HALF_RAY
               <= 2 * HALF_RAY + SECONDS_PER_YEAR * SECONDS_PER_YEAR * RAY
    requires 0 <= Pairs(t) * b - 2 * v < 2
    requires 0 <= b * rate - d * (SECONDS_PER_YEAR * RAY) + HALF_RAY <= 2 * HALF_RAY + SECONDS_PER_YEAR * RAY
    requires 0 <= Triples(t) * d - 6 * w < 6
    ensures SeriesNumerator(rate, t) <= SERIES_DENOMINATOR * (u + v + w) + SeriesError(rate, t)
    ensures SERIES_DENOMINATOR * (u + v + w) <= SeriesNumerator(rate, t) + SeriesError(rate, t)
  {
    hide Pairs, Triples;
    FirstIsClose(rate * t, u);
    SecondIsClose(rate * rate, Pairs(t), b, v);
    ThirdIsClose(rate, Triples(t), b, d, w);
  }

  /** The factor of a nonempty span, term by term. */
  lemma ThreeTerms(rate: nat, last: nat, now: nat)
    requires now > last && CompoundFactor(rate, last, now).Ok?
    ensures var t := now - last;
            var b := MulNear(rate, rate) / (SECONDS_PER_YEAR * SECONDS_PER_YEAR);
            var d := MulNear(b, rate) / SECONDS_PER_YEAR;
            CompoundFactor(rate, last, now).value
            == RAY + rate * t / SECONDS_PER_YEAR + Pairs(t) * b / 2 + Triples(t) * d / 6
  {
    hide MulNear;
    var t := now - last;
    assert Times(t, t - 1) == Pairs(t);
    assert Times(Times(t, t - 1), if t > 1 then t - 2 else 0) == Triples(t) by {
      if t == 1 {
        assert Times(Times(1, 0), 0) == 0;
      }
    }
    hide Pairs, Triples, Times;
  }

  lemma NothingYet(rate: nat)
    ensures SeriesNumerator(rate, 0) == 0 && SeriesError(rate, 0) >= 0
  {
  }

  /**
   The compound factor is one ray plus the first three terms of the binomial series for the rate over the span, in
   both directions up to the stated error.
   */
  lemma CompoundIsSeries(rate: nat, last: nat, now: nat)
    requires CompoundFactor(rate, last, now).Ok?
    ensures now >= last && CompoundFactor(rate, last, now).value >= RAY
    ensures var (interest, t) := (CompoundFactor(rate, last, now).value - RAY, now - last);
            && SeriesNumerator(rate, t) <= SERIES_DENOMINATOR * interest + SeriesError(rate, t)
            && SERIES_DENOMINATOR * interest <= SeriesNumerator(rate, t) + SeriesError(rate, t)
  {
    var t := now - last;
    if t == 0 {
      NothingYet(rate);
    } else {
      var u := rate * t / SECONDS_PER_YEAR;
      var square := MulNear(rate, rate);
      var b := square / (SECONDS_PER_YEAR * SECONDS_PER_YEAR);
      var cube := MulNear(b, rate);
      var d := cube / SECONDS_PER_YEAR;
      var (v, w) := (Pairs(t) * b / 2, Triples(t) * d / 6);
      QuotientBounds(rate * t, SECONDS_PER_YEAR);
      FlooredPower(rate * rate, square, b, SECONDS_PER_YEAR * SECONDS_PER_YEAR);
      FlooredPower(b * rate, cube, d, SECONDS_PER_YEAR);
      ThreeTerms(rate, last, now);
      TermsAreClose(rate, t, u, b, v, d, w);
    }
  }
}
