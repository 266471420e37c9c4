/** The kinked borrow-rate curve and the supplier rate derived from it. */
module RateStrategy {
  import opened Common
  import opened RayMath

  const MAX_TOTAL_RATE: nat := 20 * RAY
  const MAX_COMPONENT_RATE: nat := 10 * RAY

  datatype Params = Params(base: nat, slope1: nat, slope2: nat, optimal: nat)

  datatype Rates = Rates(liquidity: nat, borrow: nat)

  function SaturatingAdd(a: nat, b: nat): nat {
    Min(a + b, U128_MAX)
  }

  function ValidateParams(p: Params): Result<()> {
    if p.optimal == 0 || p.optimal >= RAY then Err(InvalidAmount)
    else if p.base > MAX_COMPONENT_RATE then Err(InvalidAmount)
    else if p.slope1 > MAX_COMPONENT_RATE || p.slope2 > MAX_COMPONENT_RATE then Err(InvalidAmount)
    else if p.slope1 == 0 || p.slope2 == 0 then Err(InvalidAmount)
    else if p.slope2 < p.slope1 then Err(InvalidAmount)
    else if SaturatingAdd(SaturatingAdd(p.base, p.slope1), p.slope2) > MAX_TOTAL_RATE then Err(InvalidAmount)
    else Ok(())
  }

  ghost predicate Valid(p: Params) {
    ValidateParams(p).Ok?
  }

  /** The parameters a strategy stores: a kink inside the ray, two positive ordered slopes, and bounded rates. */
  lemma ValidMeans(p: Params)
    ensures Valid(p) <==>
            && 0 < p.optimal < RAY && 0 < p.slope1 <= p.slope2
            && p.base <= MAX_COMPONENT_RATE && p.slope2 <= MAX_COMPONENT_RATE
            && p.base + p.slope1 + p.slope2 <= MAX_TOTAL_RATE
  {
  }

  function Utilization(available: nat, debt: nat): Result<nat> {
    var total :- Fit(available + debt);
    if total == 0 then Ok(0) else RayDiv(debt, total)
  }

  function BorrowRate(p: Params, utilization: nat): Result<nat> {
    if utilization > p.optimal then
      var excess := utilization - p.optimal;
      var ratio :- if RAY == p.optimal then Ok(0)
                   else if RAY < p.optimal then Err(MathOverflow)
                   else RayDiv(excess, RAY - p.optimal);
      var part :- RayMul(p.slope2, ratio);
      var s :- Fit(p.base + p.slope1);
      Fit(s + part)
    else
      var ratio :- if p.optimal == 0 then Ok(0) else RayDiv(utilization, p.optimal);
      var part :- RayMul(p.slope1, ratio);
      Fit(p.base + part)
  }

  function CalculateRates(p: Params, available: nat, debt: nat, reserveFactor: nat): Result<Rates> {
    if reserveFactor > BASIS_POINTS then
      Err(InvalidAmount)
    else
      var utilization :- Utilization(available, debt);
      var borrow :- BorrowRate(p, utilization);
      var scaledFactor :- Fit(reserveFactor * RAY);
      var factor := scaledFactor / BASIS_POINTS;
      if factor > RAY then
        Err(InvalidAmount)
      else
        var gross :- RayMul(borrow, utilization);
        var liquidity :- RayMul(gross, RAY - factor);
        Ok(Rates(liquidity, borrow))
  }

  // ------------------------------------------------------------------ the curve

  /** Utilization exists exactly when the sum fits, and never exceeds one ray. */
  lemma UtilizationAtMostRay(available: nat, debt: nat)
    ensures Utilization(available, debt).Ok? <==> available + debt <= U128_MAX
    ensures Utilization(available, debt).Ok? ==> Utilization(available, debt).value <= RAY
  {
    if 0 < available + debt <= U128_MAX {
      DivNearShare(debt, available + debt);
    }
  }

  /** More debt over less idle liquidity never lowers the rounded utilization. */
  lemma UtilizationMonotone(available: nat, debt: nat, available': nat, debt': nat)
    requires Utilization(available, debt).Ok? && Utilization(available', debt').Ok?
    requires debt * (available' + debt') <= debt' * (available + debt)
    requires available' + debt' == 0 ==> debt == 0
    ensures Utilization(available, debt).value <= Utilization(available', debt').value
  {
    if available + debt > 0 && available' + debt' > 0 {
      DivNearMonotone(debt, available + debt, debt', available' + debt');
    } else if available + debt > 0 {
      assert DivNear(0, available + debt) == 0 by {
        CompareQuotients(DivNear(0, available + debt), 0, available + debt);
      }
    }
  }

  /** Every validated curve is total on utilizations up to one ray, and stays below its own ceiling. */
  lemma BorrowRateBounded(p: Params, u: nat)
    requires Valid(p) && u <= RAY
    ensures BorrowRate(p, u).Ok?
    ensures p.base <= BorrowRate(p, u).value <= p.base + p.slope1 + p.slope2 <= MAX_TOTAL_RATE
    ensures u <= p.optimal ==> BorrowRate(p, u).value <= p.base + p.slope1
    ensures u >= p.optimal ==> BorrowRate(p, u).value >= p.base + p.slope1
  {
    if u > p.optimal {
      DivNearShare(u - p.optimal, RAY - p.optimal);
      MulNearByRay(p.slope2, DivNear(u - p.optimal, RAY - p.optimal));
    } else {
      DivNearShare(u, p.optimal);
      MulNearByRay(p.slope1, DivNear(u, p.optimal));
    }
  }

  /** The borrow rate never falls as utilization rises, on either side of the kink and across it. */
  lemma BorrowRateMonotone(p: Params, u: nat, u': nat)
    requires Valid(p) && u <= u' <= RAY
    ensures BorrowRate(p, u).Ok? && BorrowRate(p, u').Ok?
    ensures BorrowRate(p, u).value <= BorrowRate(p, u').value
  {
    BorrowRateBounded(p, u);
    BorrowRateBounded(p, u');
    if u > p.optimal {
      var d := RAY - p.optimal;
      MulMonotone(u - p.optimal, u' - p.optimal, d, d);
      DivNearMonotone(u - p.optimal, d, u' - p.optimal, d);
      MulNearMonotone(p.slope2, p.slope2, DivNear(u - p.optimal, d), DivNear(u' - p.optimal, d));
    } else if u' <= p.optimal {
      MulMonotone(u, u', p.optimal, p.optimal);
      DivNearMonotone(u, p.optimal, u', p.optimal);
      MulNearMonotone(p.slope1, p.slope1, DivNear(u, p.optimal), DivNear(u', p.optimal));
    }
  }

  /** Utilization is the share of debt in the total, to within half a unit in the last digit. */
  lemma UtilizationIsShare(available: nat, debt: nat)
    requires Utilization(available, debt).Ok?
    ensures var (u, total) := (Utilization(available, debt).value, available + debt);
            && (total == 0 ==> u == 0)
            && (total > 0 ==> 2 * (debt * RAY) - total < 2 * (u * total) <= 2 * (debt * RAY) + total)
  {
  }

  lemma ShareTimesSlope(slope: nat, part: nat, width: nat, q: nat)
    requires 2 * (part * RAY) - width < 2 * (q * width) <= 2 * (part * RAY) + width
    ensures 2 * RAY * (slope * part) - slope * width
         <= 2 * ((slope * q) * width)
         <= 2 * RAY * (slope * part) + slope * width
  {
    SpreadTimes(2 * (part * RAY), 2 * (q * width), width, slope);
    assert (2 * (part * RAY)) * slope == 2 * RAY * (slope * part);
    assert (2 * (q * width)) * slope == 2 * ((slope * q) * width);
  }

  lemma ProductTimesWidth(product: nat, width: nat, rise: nat)
    requires product - HALF_RAY < rise * RAY <= product + HALF_RAY
    ensures product * width - HALF_RAY * width <= RAY * (rise * width) <= product * width + HALF_RAY * width
  {
    SpreadTimes(product, rise * RAY, HALF_RAY, width);
    assert (rise * RAY) * width == RAY * (rise * width);
  }

  /** A slope times a rounded share of its width lies on the line from zero to the slope, up to two roundings. */
  lemma OnLine(slope: nat, part: nat, width: nat, q: nat, rise: nat)
    requires width > 0 && 2 * (part * RAY) - width < 2 * (q * width) <= 2 * (part * RAY) + width
    requires slope * q - HALF_RAY < rise * RAY <= slope * q + HALF_RAY
    ensures 2 * RAY * (slope * part) <= 2 * RAY * (rise * width) + width * (RAY + slope)
    ensures 2 * RAY * (rise * width) <= 2 * RAY * (slope * part) + width * (RAY + slope)
  {
    ShareTimesSlope(slope, part, width, q);
    ProductTimesWidth(slope * q, width, rise);
    assert width * (RAY + slope) == RAY * width + slope * width;
  }

  /**
   The curve is two straight lines: from the base to the first slope above it at the optimal utilization, and from
   there to both slopes at one ray, each to within the roundings of its share and of its product.
   */
  lemma BorrowRateOnCurve(p: Params, u: nat)
    requires Valid(p) && u <= RAY
    ensures BorrowRate(p, u).Ok?
    ensures u <= p.optimal ==>
              var rise := BorrowRate(p, u).value - p.base;
              && rise >= 0
              && 2 * RAY * (p.slope1 * u) <= 2 * RAY * (rise * p.optimal) + p.optimal * (RAY + p.slope1)
              && 2 * RAY * (rise * p.optimal) <= 2 * RAY * (p.slope1 * u) + p.optimal * (RAY + p.slope1)
    ensures u > p.optimal ==>
              var (rise, width) := (BorrowRate(p, u).value - p.base - p.slope1, RAY - p.optimal);
              && rise >= 0
              && 2 * RAY * (p.slope2 * (u - p.optimal)) <= 2 * RAY * (rise * width) + width * (RAY + p.slope2)
              && 2 * RAY * (rise * width) <= 2 * RAY * (p.slope2 * (u - p.optimal)) + width * (RAY + p.slope2)
  {
    BorrowRateBounded(p, u);
    if u > p.optimal {
      var q := DivNear(u - p.optimal, RAY - p.optimal);
      OnLine(p.slope2, u - p.optimal, RAY - p.optimal, q, MulNear(p.slope2, q));
    } else {
      var q := DivNear(u, p.optimal);
      OnLine(p.slope1, u, p.optimal, q, MulNear(p.slope1, q));
    }
  }

  // ------------------------------------------------------------------ the supplier rate

  /** A successful computation is exactly one with a factor in range and a total that fits. */
  lemma RatesDefined(p: Params, available: nat, debt: nat, reserveFactor: nat)
    requires Valid(p)
    ensures CalculateRates(p, available, debt, reserveFactor).Ok? <==>
            reserveFactor <= BASIS_POINTS && available + debt <= U128_MAX
    ensures CalculateRates(p, available, debt, reserveFactor).Ok? ==>
              var rates := CalculateRates(p, available, debt, reserveFactor).value;
              rates.liquidity <= rates.borrow <= p.base + p.slope1 + p.slope2 <= MAX_TOTAL_RATE
  {
    UtilizationAtMostRay(available, debt);
    if reserveFactor <= BASIS_POINTS && available + debt <= U128_MAX {
      var u := Utilization(available, debt).value;
      BorrowRateBounded(p, u);
      var b := BorrowRate(p, u).value;
      MulNearByRay(b, u);
      var factor := reserveFactor * RAY / BASIS_POINTS;
      assert factor <= RAY;
      MulNearByRay(MulNear(b, u), RAY - factor);
    }
  }

  lemma FactorIsExact(reserveFactor: nat)
    requires reserveFactor <= BASIS_POINTS
    ensures (RAY - reserveFactor * RAY / BASIS_POINTS) * BASIS_POINTS == RAY * (BASIS_POINTS - reserveFactor)
  {
  }

  lemma KeptShare(b: nat, u: nat, gross: nat, kept: nat, rest: nat, net: nat)
    requires kept * BASIS_POINTS == RAY * rest && rest <= BASIS_POINTS
    requires b * u - HALF_RAY < gross * RAY <= b * u + HALF_RAY
    requires gross * kept - HALF_RAY < net * RAY <= gross * kept + HALF_RAY
    ensures (b * u) * rest - RAY * BASIS_POINTS <= RAY * BASIS_POINTS * net <= (b * u) * rest + RAY * BASIS_POINTS
  {
    assert (gross * kept) * BASIS_POINTS == (gross * RAY) * rest by {
      assert (gross * kept) * BASIS_POINTS == gross * (kept * BASIS_POINTS);
      assert gross * (RAY * rest) == (gross * RAY) * rest;
    }
    SpreadTimes(b * u, gross * RAY, HALF_RAY, rest);
  }

  /**
   Both rates of a successful computation: the curve at the share of debt, and for suppliers the borrow rate times
   that share less the reserve factor, to within one unit in the last digit.
   */
  lemma RatesAreShares(p: Params, available: nat, debt: nat, reserveFactor: nat)
    requires Valid(p) && CalculateRates(p, available, debt, reserveFactor).Ok?
    ensures Utilization(available, debt).Ok? && reserveFactor <= BASIS_POINTS
    ensures var (rates, u) := (CalculateRates(p, available, debt, reserveFactor).value,
                               Utilization(available, debt).value);
            && BorrowRate(p, u) == Ok(rates.borrow)
            && (rates.borrow * u) * (BASIS_POINTS - reserveFactor) - RAY * BASIS_POINTS
               <= RAY * BASIS_POINTS * rates.liquidity
               <= (rates.borrow * u) * (BASIS_POINTS - reserveFactor) + RAY * BASIS_POINTS
  {
    hide BorrowRate, Utilization;
    var (rates, u) := (CalculateRates(p, available, debt, reserveFactor).value, Utilization(available, debt).value);
    var kept := RAY - reserveFactor * RAY / BASIS_POINTS;
    FactorIsExact(reserveFactor);
    KeptShare(rates.borrow, u, MulNear(rates.borrow, u), kept, BASIS_POINTS - reserveFactor, rates.liquidity);
  }

  /** The whole pair is monotone: more debt over less idle liquidity never lowers the borrow rate. */
  lemma RatesMonotone(p: Params, available: nat, debt: nat, available': nat, debt': nat, reserveFactor: nat)
    requires Valid(p)
    requires CalculateRates(p, available, debt, reserveFactor).Ok?
    requires CalculateRates(p, available', debt', reserveFactor).Ok?
    requires available >= available' && debt <= debt'
    ensures CalculateRates(p, available, debt, reserveFactor).value.borrow
         <= CalculateRates(p, available', debt', reserveFactor).value.borrow
  {
    UtilizationAtMostRay(available, debt);
    UtilizationAtMostRay(available', debt');
    assert debt * (available' + debt') <= debt' * (available + debt) by {
      MulMonotone(debt, debt', available', available);
      assert debt * (available' + debt') == debt * available' + debt * debt';
      assert debt' * (available + debt) == debt' * available + debt * debt';
    }
    UtilizationMonotone(available, debt, available', debt');
    BorrowRateMonotone(p, Utilization(available, debt).value, Utilization(available', debt').value);
  }

  /** The arithmetic of the claim above, for any rate and any rounded share. */
  lemma ShareOfRate(b: nat, u: nat, gross: nat, debt: nat, total: nat)
    requires gross * RAY <= b * u + HALF_RAY
    requires 2 * (u * total) <= 2 * (debt * RAY) + total
    requires b <= MAX_TOTAL_RATE
    ensures 2 * (gross * total) <= 2 * (b * debt) + 21 * total
  {
    calc {
      2 * (gross * total) * RAY;
      == { assert (gross * total) * RAY == (gross * RAY) * total; }
      2 * ((gross * RAY) * total);
      <= { MulMonotone(gross * RAY, b * u + HALF_RAY, total, total); }
      2 * ((b * u + HALF_RAY) * total);
      == { assert (b * u + HALF_RAY) * total == b * (u * total) + HALF_RAY * total; }
      b * (2 * (u * total)) + RAY * total;
      <= { MulMonotone(b, b, 2 * (u * total), 2 * (debt * RAY) + total); }
      b * (2 * (debt * RAY) + total) + RAY * total;
      == { assert b * (2 * (debt * RAY) + total) == 2 * RAY * (b * debt) + b * total; }
      2 * RAY * (b * debt) + b * total + RAY * total;
      <= { MulMonotone(b, MAX_TOTAL_RATE, total, total); }
      2 * RAY * (b * debt) + 21 * RAY * total;
    }
  }

  /**
   Suppliers are promised no more than borrowers owe: on the larger of supply and debt, the supplier
   rate earns at most what the borrow rate charges on the debt, plus a rounding term linear in that
   total (at most 10.5 units per unit of total liquidity, since a rate is at most 20 rays).
   */
  lemma SuppliersEarnWhatBorrowersPay(p: Params, supply: nat, debt: nat, reserveFactor: nat, rates: Rates)
    requires Valid(p)
    requires CalculateRates(p, if supply > debt then supply - debt else 0, debt, reserveFactor) == Ok(rates)
    ensures 2 * (rates.liquidity * Max(supply, debt)) <= 2 * (rates.borrow * debt) + 21 * Max(supply, debt)
  {
    var available := if supply > debt then supply - debt else 0;
    var total := Max(supply, debt);
    assert total == available + debt;
    UtilizationAtMostRay(available, debt);
    var u := Utilization(available, debt).value;
    BorrowRateBounded(p, u);
    var b := rates.borrow;
    var gross := MulNear(b, u);
    RatesDefined(p, available, debt, reserveFactor);
    MulNearByRay(gross, RAY - reserveFactor * RAY / BASIS_POINTS);
    assert rates.liquidity <= gross;
    if total > 0 {
      // gross*RAY <= b*u + HALF_RAY and 2*u*total <= 2*debt*RAY + total
      ShareOfRate(b, u, gross, debt, total);
      MulMonotone(rates.liquidity, gross, total, total);
    }
  }
}
