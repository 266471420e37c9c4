/**
 Solvency of one reserve, operation by operation. In ray-scaled units the reserve owns its cash, its
 recorded deficit and its borrowers' debt, and owes its suppliers. Every operation may lose a rounding
 amount; an audit adds those amounts up, and the margin never falls below minus the audited budget.
 */
module Solvency {
  import opened Common
  import opened RayMath
  import opened Interest
  import opened RateStrategy
  import opened Tokens
  import opened Reserves

  /** What the reserve owns minus what it owes, in units of 1/RAY of the asset. */
  function Margin(r: Reserve): int {
    RAY * (r.cash + r.deficit) + r.debt.total * r.data.borrowIndex - r.supply.total * r.data.liquidityIndex
  }

  /** Backed totals, indices in order and at least one ray, rates in order and bounded. */
  ghost predicate Sound(r: Reserve) {
    && Backed(r.supply) && Backed(r.debt)
    && RAY <= r.data.liquidityIndex <= r.data.borrowIndex
    && r.data.liquidityRate <= r.data.borrowRate <= MAX_TOTAL_RATE
  }

  /**
   `budget` bounds everything lost to rounding so far. `slack` bounds by how much the stored supplier
   rate overcharges the stored borrow rate at the current totals.
   */
  datatype Audit = Audit(budget: nat, slack: nat)

  ghost predicate Covered(r: Reserve, a: Audit) {
    && Sound(r)
    && Margin(r) + a.budget >= 0
    && r.data.liquidityRate * (r.supply.total * r.data.liquidityIndex)
       <= r.data.borrowRate * (r.debt.total * r.data.borrowIndex) + a.slack
  }

  // ------------------------------------------------------------------ what may be lost

  /** Accrual over `dt` seconds: half a ray per share, one debt index unit, and the rate slack over time. */
  function AccrualLoss(supply: nat, debt: nat, borrowIndex: nat, slack: nat, dt: nat): nat {
    (SECONDS_PER_YEAR * (debt * borrowIndex + HALF_RAY * (supply + debt)) + dt * slack) / (RAY * SECONDS_PER_YEAR) + 1
  }

  /** The interest fraction of a rate over `dt` seconds. */
  function Fraction(rate: nat, dt: nat): nat {
    rate * dt / SECONDS_PER_YEAR
  }

  /** The slack left when indices move by the supplier's fraction but rates stay. */
  function GrownSlack(supply: nat, debt: nat, liquidityRate: nat, borrowRate: nat, slack: nat, fraction: nat): nat {
    (slack * (RAY + fraction) + HALF_RAY * (liquidityRate * supply) + HALF_RAY * (borrowRate * debt)) / RAY + 1
  }

  /** A running total as a count; sound reserves never have a negative one. */
  function Shares(s: Scaled): nat {
    if s.total < 0 then 0 else s.total
  }

  /** The slack of freshly computed rates: linear in total liquidity. */
  function FreshSlack(r: Reserve): nat {
    21 * HALF_RAY * Max(MulNear(Shares(r.supply), r.data.liquidityIndex), MulNear(Shares(r.debt), r.data.borrowIndex))
    + 20 * RAY * RAY
  }

  function AfterAccrual(r: Reserve, a: Audit, now: nat): Audit {
    if now <= r.data.lastUpdate then a
    else
      var dt := now - r.data.lastUpdate;
      Audit(a.budget + AccrualLoss(Shares(r.supply), Shares(r.debt), r.data.borrowIndex, a.slack, dt),
            GrownSlack(Shares(r.supply), Shares(r.debt), r.data.liquidityRate, r.data.borrowRate, a.slack,
                       Fraction(r.data.liquidityRate, dt)))
  }

  /** The audit after an operation that accrues, loses at most `loss`, and refreshes the rates. */
  function AfterOperation(r: Reserve, r': Reserve, a: Audit, now: nat, loss: nat): Audit {
    Audit(AfterAccrual(r, a, now).budget + loss, FreshSlack(r'))
  }

  // ------------------------------------------------------------------ accrual

  /** Time only moves the indices up, and keeps the borrow index above the liquidity index. */
  lemma AccrualKeepsOrder(d: Data, now: nat)
    requires RAY <= d.liquidityIndex <= d.borrowIndex && d.liquidityRate <= d.borrowRate
    requires Accrue(d, now).Ok?
    ensures var d' := Accrue(d, now).value;
            && d.liquidityIndex <= d'.liquidityIndex <= d'.borrowIndex
            && d.borrowIndex <= d'.borrowIndex
            && d'.lastUpdate == now
            && d' == d.(liquidityIndex := d'.liquidityIndex, borrowIndex := d'.borrowIndex, lastUpdate := now)
  {
    if now > d.lastUpdate {
      LinearBelowCompound(d.liquidityRate, d.borrowRate, d.lastUpdate, now);
      var linear := LinearFactor(d.liquidityRate, d.lastUpdate, now).value;
      var compound := CompoundFactor(d.borrowRate, d.lastUpdate, now).value;
      MulNearByRay(d.liquidityIndex, linear);
      MulNearByRay(d.borrowIndex, compound);
      MulNearMonotone(d.liquidityIndex, d.borrowIndex, linear, compound);
    }
  }

  /** The supply side of one accrual: at most its linear interest plus half a unit per share. */
  lemma SupplyGrowth(supply: nat, index: nat, fraction: nat)
    ensures RAY * (supply * MulNear(index, RAY + fraction))
         <= RAY * (supply * index) + supply * index * fraction + HALF_RAY * supply
  {
    var index' := MulNear(index, RAY + fraction);
    assert supply * (index' * RAY) <= supply * (index * (RAY + fraction) + HALF_RAY) by {
      MulMonotone(supply, supply, index' * RAY, index * (RAY + fraction) + HALF_RAY);
    }
    assert supply * (index' * RAY) == RAY * (supply * index');
    assert supply * (index * (RAY + fraction) + HALF_RAY)
        == RAY * (supply * index) + supply * index * fraction + HALF_RAY * supply;
  }

  lemma GrowthFloor(debt: nat, index: nat, fraction: nat, next: nat)
    requires next * RAY + HALF_RAY >= index * (RAY + fraction)
    ensures RAY * (debt * next) >= RAY * (debt * index) + debt * index * fraction - HALF_RAY * debt
  {
    MulMonotone(debt, debt, index * (RAY + fraction), next * RAY + HALF_RAY);
    assert debt * (next * RAY + HALF_RAY) == RAY * (debt * next) + HALF_RAY * debt;
    assert debt * (index * (RAY + fraction)) == RAY * (debt * index) + debt * index * fraction;
  }

  /** The debt side of one accrual: at least its linear interest minus half a unit per share. */
  lemma DebtGrowth(debt: nat, index: nat, fraction: nat, factor: nat)
    requires factor >= RAY + fraction
    ensures RAY * (debt * MulNear(index, factor))
         >= RAY * (debt * index) + debt * index * fraction - HALF_RAY * debt
  {
    var index' := MulNear(index, factor);
    MulMonotone(index, index, RAY + fraction, factor);
    GrowthFloor(debt, index, fraction, index');
  }

  /** The per-second fractions of both rates, compared on the two ledger values x (supply) and y (debt). */
  lemma FractionsCompare(x: nat, y: nat, low: nat, high: nat, slack: nat, dt: nat)
    requires low * x <= high * y + slack
    ensures SECONDS_PER_YEAR * (x * (low * dt / SECONDS_PER_YEAR))
         <= SECONDS_PER_YEAR * (y * (high * dt / SECONDS_PER_YEAR)) + SECONDS_PER_YEAR * y + dt * slack
  {
    var lf, hf := low * dt / SECONDS_PER_YEAR, high * dt / SECONDS_PER_YEAR;
    calc {
      SECONDS_PER_YEAR * (x * lf);
      ==
      x * (SECONDS_PER_YEAR * lf);
      <= { MulMonotone(x, x, SECONDS_PER_YEAR * lf, low * dt); }
      x * (low * dt);
      == { assert x * (low * dt) == dt * (low * x); }
      dt * (low * x);
      <= { MulMonotone(dt, dt, low * x, high * y + slack); }
      dt * (high * y + slack);
      == { assert dt * (high * y + slack) == y * (high * dt) + dt * slack; }
      y * (high * dt) + dt * slack;
      <= { MulMonotone(y, y, high * dt, SECONDS_PER_YEAR * hf + SECONDS_PER_YEAR); }
      y * (SECONDS_PER_YEAR * hf + SECONDS_PER_YEAR) + dt * slack;
      ==
      SECONDS_PER_YEAR * (y * hf) + SECONDS_PER_YEAR * y + dt * slack;
    }
  }

  /** n <= d * (n/d + 1), for the one constant divisor used here. */
  lemma LossCovers(n: nat, m: int)
    requires RAY * SECONDS_PER_YEAR * m + n >= 0
    ensures m + (n / (RAY * SECONDS_PER_YEAR) + 1) >= 0
  {
  }

  /** The change in margin over one accrual, from the growth of the two sides. */
  lemma AccrualMargin(s: nat, d: nat, li: nat, bi: nat, lr: nat, br: nat, slack: nat, dt: nat, factor: nat)
    requires lr * (s * li) <= br * (d * bi) + slack
    requires factor >= RAY + br * dt / SECONDS_PER_YEAR
    ensures d * MulNear(bi, factor) - s * MulNear(li, RAY + lr * dt / SECONDS_PER_YEAR)
            + AccrualLoss(s, d, bi, slack, dt) >= d * bi - s * li
  {
    var lf, bf := lr * dt / SECONDS_PER_YEAR, br * dt / SECONDS_PER_YEAR;
    SupplyGrowth(s, li, lf);
    DebtGrowth(d, bi, bf, factor);
    FractionsCompare(s * li, d * bi, lr, br, slack, dt);
    var li', bi' := MulNear(li, RAY + lf), MulNear(bi, factor);
    LossCovers(SECONDS_PER_YEAR * (d * bi + HALF_RAY * (s + d)) + dt * slack, d * bi' - s * li' - d * bi + s * li);
  }

  /** A rate times the supply side of one accrual. */
  lemma RateTimesSupply(lr: nat, s: nat, li: nat, fraction: nat)
    ensures RAY * (lr * (s * MulNear(li, RAY + fraction)))
         <= (lr * (s * li)) * (RAY + fraction) + HALF_RAY * (lr * s)
  {
    var x, grown := s * li, s * MulNear(li, RAY + fraction);
    SupplyGrowth(s, li, fraction);
    assert x * fraction == s * li * fraction;
    MulMonotone(lr, lr, RAY * grown, RAY * x + x * fraction + HALF_RAY * s);
    assert lr * (RAY * grown) == RAY * (lr * grown);
    assert lr * (RAY * x + x * fraction + HALF_RAY * s) == (lr * x) * (RAY + fraction) + HALF_RAY * (lr * s);
  }

  /** A rate times the debt side of one accrual. */
  lemma RateTimesDebt(br: nat, d: nat, bi: nat, fraction: nat, factor: nat)
    requires factor >= RAY + fraction
    ensures RAY * (br * (d * MulNear(bi, factor))) + HALF_RAY * (br * d) >= (br * (d * bi)) * (RAY + fraction)
  {
    var y, grown := d * bi, d * MulNear(bi, factor);
    DebtGrowth(d, bi, fraction, factor);
    assert y * fraction == d * bi * fraction;
    assert RAY * y + y * fraction >= 0;
    MulMonotone(br, br, RAY * y + y * fraction, RAY * grown + HALF_RAY * d);
    assert br * (RAY * grown + HALF_RAY * d) == RAY * (br * grown) + HALF_RAY * (br * d);
    assert br * (RAY * y + y * fraction) == (br * y) * (RAY + fraction);
  }

  lemma FractionMonotone(low: nat, high: nat, dt: nat)
    requires low <= high
    ensures Fraction(low, dt) <= Fraction(high, dt)
  {
    MulMonotone(low, high, dt, dt);
  }

  /** What a rate charges on a ledger value; named so that the comparison below stays linear. */
  function Charge(rate: nat, shares: nat, index: nat): nat {
    rate * (shares * index)
  }

  lemma ChargesGrow(lr: nat, s: nat, li: nat, lf: nat, br: nat, d: nat, bi: nat, bf: nat, factor: nat)
    requires factor >= RAY + bf
    ensures RAY * Charge(lr, s, MulNear(li, RAY + lf)) <= Times(Charge(lr, s, li), RAY + lf) + HALF_RAY * Times(lr, s)
    ensures RAY * Charge(br, d, MulNear(bi, factor)) + HALF_RAY * Times(br, d) >= Times(Charge(br, d, bi), RAY + bf)
  {
    RateTimesSupply(lr, s, li, lf);
    RateTimesDebt(br, d, bi, bf, factor);
  }

  lemma SlackCombines(
      u: nat, w: nat, s: nat, d: nat, lr: nat, br: nat, slack: nat, lf: nat, bf: nat, p: nat, q: nat)
    requires u <= w + slack && lf <= bf
    requires RAY * p <= Times(u, RAY + lf) + HALF_RAY * Times(lr, s)
    requires RAY * q + HALF_RAY * Times(br, d) >= Times(w, RAY + bf)
    ensures p <= q + GrownSlack(s, d, lr, br, slack, lf)
  {
    MulMonotone(u, w + slack, RAY + lf, RAY + lf);
    MulMonotone(w, w, RAY + lf, RAY + bf);
    assert (w + slack) * (RAY + lf) == w * (RAY + lf) + slack * (RAY + lf);
  }

  /** The slack bound survives an accrual without a refresh. */
  lemma SlackGrows(s: nat, d: nat, li: nat, bi: nat, lr: nat, br: nat, slack: nat, lf: nat, bf: nat, factor: nat)
    requires Charge(lr, s, li) <= Charge(br, d, bi) + slack
    requires lf <= bf && factor >= RAY + bf
    ensures Charge(lr, s, MulNear(li, RAY + lf)) <= Charge(br, d, MulNear(bi, factor)) + GrownSlack(s, d, lr, br,
        slack, lf)
  {
    hide MulNear, GrownSlack, Charge, Times;
    ChargesGrow(lr, s, li, lf, br, d, bi, bf, factor);
    SlackCombines(Charge(lr, s, li), Charge(br, d, bi), s, d, lr, br, slack, lf, bf,
                  Charge(lr, s, MulNear(li, RAY + lf)), Charge(br, d, MulNear(bi, factor)));
  }

  /** Bringing the indices up to date keeps a covered reserve covered, at the audited price. */
  lemma AccrualCovered(r: Reserve, a: Audit, now: nat)
    requires Covered(r, a) && Accrue(r.data, now).Ok?
    ensures Covered(r.(data := Accrue(r.data, now).value), AfterAccrual(r, a, now))
  {
    AccrualKeepsOrder(r.data, now);
    var d := r.data;
    if now > d.lastUpdate {
      var dt := now - d.lastUpdate;
      var compound := CompoundFactor(d.borrowRate, d.lastUpdate, now).value;
      CompoundAtLeastLinear(d.borrowRate, d.lastUpdate, now);
      AccrualMargin(r.supply.total, r.debt.total, d.liquidityIndex, d.borrowIndex, d.liquidityRate, d.borrowRate,
                    a.slack, dt, compound);
      FractionMonotone(d.liquidityRate, d.borrowRate, dt);
      SlackGrows(r.supply.total, r.debt.total, d.liquidityIndex, d.borrowIndex, d.liquidityRate, d.borrowRate,
                 a.slack, Fraction(d.liquidityRate, dt), Fraction(d.borrowRate, dt), compound);
    }
  }

  // ------------------------------------------------------------------ refresh

  /** Rates fresh from the strategy: the rounded totals stand for the exact ones up to half a ray each. */
  lemma FreshSlackArithmetic(x: nat, y: nat, supply: nat, debt: nat, lr: nat, br: nat)
    requires lr <= br <= MAX_TOTAL_RATE
    requires x <= supply * RAY + HALF_RAY && debt * RAY <= y + HALF_RAY
    requires 2 * (lr * Max(supply, debt)) <= 2 * (br * debt) + 21 * Max(supply, debt)
    ensures lr * x <= br * y + 21 * HALF_RAY * Max(supply, debt) + 20 * RAY * RAY
  {
    var total := Max(supply, debt);
    calc {
      lr * x;
      <= { MulMonotone(lr, lr, x, total * RAY + HALF_RAY); }
      lr * (total * RAY + HALF_RAY);
      == { assert lr * (total * RAY + HALF_RAY) == RAY * (lr * total) + HALF_RAY * lr; }
      RAY * (lr * total) + HALF_RAY * lr;
      <=
      RAY * (br * debt) + 21 * HALF_RAY * total + HALF_RAY * lr;
      == { assert RAY * (br * debt) == br * (debt * RAY); }
      br * (debt * RAY) + 21 * HALF_RAY * total + HALF_RAY * lr;
      <= { MulMonotone(br, br, debt * RAY, y + HALF_RAY); }
      br * (y + HALF_RAY) + 21 * HALF_RAY * total + HALF_RAY * lr;
      == { assert br * (y + HALF_RAY) == br * y + HALF_RAY * br; }
      br * y + HALF_RAY * (br + lr) + 21 * HALF_RAY * total;
      <=
      br * y + 20 * RAY * RAY + 21 * HALF_RAY * total;
    }
  }

  /** A refresh replaces the two rates by the strategy's answer on the displayed totals, and nothing else. */
  lemma RefreshShape(r: Reserve, params: ValidParams)
    requires RefreshRates(r, params).Ok?
    ensures r.supply.total >= 0 && r.debt.total >= 0
    ensures var r' := RefreshRates(r, params).value;
            var supply, debt := MulNear(r.supply.total, r.data.liquidityIndex), MulNear(r.debt.total,
                r.data.borrowIndex);
            && r' == r.(data := r.data.(liquidityRate := r'.data.liquidityRate, borrowRate := r'.data.borrowRate))
            && CalculateRates(params, if supply > debt then supply - debt else 0, debt, r.data.config.reserveFactor)
               == Ok(Rates(r'.data.liquidityRate, r'.data.borrowRate))
  {
  }

  /** Rates computed from displayed totals overcharge the exact totals by at most the fresh slack. */
  lemma RatesCharge(params: ValidParams, s: nat, li: nat, d: nat, bi: nat, reserveFactor: nat, rates: Rates)
    requires var supply, debt := MulNear(s, li), MulNear(d, bi);
             CalculateRates(params, if supply > debt then supply - debt else 0, debt, reserveFactor) == Ok(rates)
    ensures rates.liquidity <= rates.borrow <= MAX_TOTAL_RATE
    ensures rates.liquidity * (s * li)
         <= rates.borrow * (d * bi) + 21 * HALF_RAY * Max(MulNear(s, li), MulNear(d, bi)) + 20 * RAY * RAY
  {
    var supply, debt := MulNear(s, li), MulNear(d, bi);
    RatesDefined(params, if supply > debt then supply - debt else 0, debt, reserveFactor);
    SuppliersEarnWhatBorrowersPay(params, supply, debt, reserveFactor, rates);
    FreshSlackArithmetic(s * li, d * bi, supply, debt, rates.liquidity, rates.borrow);
  }

  /** Refreshing the rates costs nothing and resets the slack. */
  lemma RefreshCovered(r: Reserve, params: ValidParams, budget: nat)
    requires Backed(r.supply) && Backed(r.debt) && RAY <= r.data.liquidityIndex <= r.data.borrowIndex
    requires Margin(r) + budget >= 0
    requires RefreshRates(r, params).Ok?
    ensures r.supply.total >= 0 && r.debt.total >= 0
    ensures var r' := RefreshRates(r, params).value;
            && r'.supply == r.supply && r'.debt == r.debt
            && Covered(r', Audit(budget, FreshSlack(r')))
  {
    RefreshShape(r, params);
    var d' := RefreshRates(r, params).value.data;
    RatesCharge(params, r.supply.total, r.data.liquidityIndex, r.debt.total, r.data.borrowIndex,
                r.data.config.reserveFactor, Rates(d'.liquidityRate, d'.borrowRate));
  }

  // ------------------------------------------------------------------ operations

  /** On an accrued reserve: a move that costs at most `loss`, then a refresh. */
  lemma MoveCovered(r: Reserve, a: Audit, moved: Reserve, params: ValidParams, loss: nat)
    requires Covered(r, a) && moved.data == r.data
    requires Backed(moved.supply) && Backed(moved.debt)
    requires Margin(moved) + loss >= Margin(r)
    requires RefreshRates(moved, params).Ok?
    ensures var r' := RefreshRates(moved, params).value;
            Covered(r', Audit(a.budget + loss, FreshSlack(r')))
  {
    RefreshCovered(moved, params, a.budget + loss);
  }

  /** Accrue, move, refresh: a move that costs at most `loss` costs the operation no more. */
  lemma OperationCovered(r: Reserve, a: Audit, now: nat, moved: Reserve, params: ValidParams, loss: nat)
    requires Covered(r, a) && Accrue(r.data, now).Ok?
    requires moved.data == Accrue(r.data, now).value
    requires Backed(moved.supply) && Backed(moved.debt)
    requires Margin(moved) + loss >= Margin(r.(data := moved.data))
    requires RefreshRates(moved, params).Ok?
    ensures var r' := RefreshRates(moved, params).value;
            Covered(r', AfterOperation(r, r', a, now, loss))
  {
    AccrualCovered(r, a, now);
    MoveCovered(r.(data := moved.data), AfterAccrual(r, a, now), moved, params, loss);
  }

  lemma DistributeShift(t: int, up: int, down: int, i: int)
    ensures (t + up - down) * i == t * i + up * i - down * i
  {
  }

  /** At fixed indices, a move of cash against supply shares costs at most `loss`. */
  lemma SupplySideShift(r: Reserve, r': Reserve, inflow: nat, outflow: nat, minted: nat, burned: nat, loss: nat)
    requires r'.data == r.data && r'.debt == r.debt
    requires r'.cash + r'.deficit == r.cash + r.deficit + inflow - outflow
    requires r'.supply.total == r.supply.total + minted - burned
    requires RAY * inflow + burned * r.data.liquidityIndex + loss >= RAY * outflow + minted * r.data.liquidityIndex
    ensures Margin(r') + loss >= Margin(r)
  {
    DistributeShift(r.supply.total, minted, burned, r.data.liquidityIndex);
  }

  /** At fixed indices, a move of cash or deficit against debt shares costs at most `loss`. */
  lemma DebtSideShift(r: Reserve, r': Reserve, inflow: nat, outflow: nat, minted: nat, burned: nat, loss: nat)
    requires r'.data == r.data && r'.supply == r.supply
    requires r'.cash + r'.deficit == r.cash + r.deficit + inflow - outflow
    requires r'.debt.total == r.debt.total + minted - burned
    requires RAY * inflow + minted * r.data.borrowIndex + loss >= RAY * outflow + burned * r.data.borrowIndex
    ensures Margin(r') + loss >= Margin(r)
  {
    DistributeShift(r.debt.total, minted, burned, r.data.borrowIndex);
  }

  lemma SupplyLoss(r: Reserve, e: Env, user: Address, amount: nat)
    requires Backed(r.supply) && Backed(r.debt) && SupplyMove(r, e, user, amount).Ok?
    ensures var moved := SupplyMove(r, e, user, amount).value;
            && moved.data == Accrue(r.data, e.now).value
            && Backed(moved.supply) && Backed(moved.debt)
            && Margin(moved) + 0 >= Margin(r.(data := moved.data))
  {
    var moved := SupplyMove(r, e, user, amount).value;
    var index := moved.data.liquidityIndex;
    MintsKeepBacked(r.supply, user, amount, index);
    MintsFavourPool(r.supply, user, amount, index);
    SupplySideShift(r.(data := moved.data), moved, amount, 0, ATokenMint(r.supply, user, amount, index).value.minted,
        0, 0);
  }

  lemma SupplyCovered(r: Reserve, a: Audit, e: Env, user: Address, amount: nat)
    requires Covered(r, a) && Supply(r, e, user, amount).Ok?
    ensures var r' := Supply(r, e, user, amount).value;
            Covered(r', AfterOperation(r, r', a, e.now, 0))
  {
    SupplyLoss(r, e, user, amount);
    var moved := SupplyMove(r, e, user, amount).value;
    OperationCovered(r, a, e.now, moved, e.params, 0);
  }

  lemma WithdrawLoss(r: Reserve, e: Env, user: Address, amount: nat)
    requires Backed(r.supply) && Backed(r.debt) && WithdrawMove(r, e, user, amount).Ok?
    ensures var moved := WithdrawMove(r, e, user, amount).value.0;
            && moved.data == Accrue(r.data, e.now).value
            && Backed(moved.supply) && Backed(moved.debt)
            && Margin(moved) + HALF_RAY >= Margin(r.(data := moved.data))
  {
    var (moved, want) := WithdrawMove(r, e, user, amount).value;
    var index := moved.data.liquidityIndex;
    BurnsKeepBacked(r.supply, user, want, index);
    SupplyBurnLosesHalf(r.supply, user, want, index);
    SupplySideShift(r.(data := moved.data), moved, 0, want, 0, ATokenBurn(r.supply, user, want, index).value.burned,
        HALF_RAY);
  }

  lemma WithdrawCovered(r: Reserve, a: Audit, e: Env, user: Address, amount: nat)
    requires Covered(r, a) && Withdraw(r, e, user, amount).Ok?
    ensures var r' := Withdraw(r, e, user, amount).value.0;
            Covered(r', AfterOperation(r, r', a, e.now, HALF_RAY))
  {
    WithdrawLoss(r, e, user, amount);
    var moved := WithdrawMove(r, e, user, amount).value.0;
    OperationCovered(r, a, e.now, moved, e.params, HALF_RAY);
  }

  lemma BorrowLoss(r: Reserve, e: Env, user: Address, amount: nat)
    requires Backed(r.supply) && Backed(r.debt) && BorrowMove(r, e, user, amount).Ok?
    ensures var moved := BorrowMove(r, e, user, amount).value;
            && moved.data == Accrue(r.data, e.now).value
            && Backed(moved.supply) && Backed(moved.debt)
            && Margin(moved) + 0 >= Margin(r.(data := moved.data))
  {
    var moved := BorrowMove(r, e, user, amount).value;
    var index := moved.data.borrowIndex;
    MintsKeepBacked(r.debt, user, amount, index);
    MintsFavourPool(r.debt, user, amount, index);
    DebtSideShift(r.(data := moved.data), moved, 0, amount, DebtMint(r.debt, user, amount, index).value.minted, 0, 0);
  }

  lemma BorrowCovered(r: Reserve, a: Audit, e: Env, user: Address, amount: nat)
    requires Covered(r, a) && Borrow(r, e, user, amount).Ok?
    ensures var r' := Borrow(r, e, user, amount).value;
            Covered(r', AfterOperation(r, r', a, e.now, 0))
  {
    BorrowLoss(r, e, user, amount);
    var moved := BorrowMove(r, e, user, amount).value;
    OperationCovered(r, a, e.now, moved, e.params, 0);
  }

  lemma RepayLoss(r: Reserve, e: Env, user: Address, amount: nat)
    requires Backed(r.supply) && Backed(r.debt) && RepayMove(r, e, user, amount).Ok?
    ensures var moved := RepayMove(r, e, user, amount).value.0;
            && moved.data == Accrue(r.data, e.now).value
            && Backed(moved.supply) && Backed(moved.debt)
            && Margin(moved) + moved.data.borrowIndex >= Margin(r.(data := moved.data))
  {
    var (moved, pay) := RepayMove(r, e, user, amount).value;
    var index := moved.data.borrowIndex;
    BurnsKeepBacked(r.debt, user, pay, index);
    DebtBurnWithinOneShare(r.debt, user, pay, index);
    DebtSideShift(r.(data := moved.data), moved, pay, 0, 0, DebtBurn(r.debt, user, pay, index).value.burned, index);
  }

  lemma RepayCovered(r: Reserve, a: Audit, e: Env, user: Address, amount: nat)
    requires Covered(r, a) && Repay(r, e, user, amount).Ok?
    ensures var r' := Repay(r, e, user, amount).value.0;
            Covered(r', AfterOperation(r, r', a, e.now, r'.data.borrowIndex))
  {
    RepayLoss(r, e, user, amount);
    var moved := RepayMove(r, e, user, amount).value.0;
    OperationCovered(r, a, e.now, moved, e.params, moved.data.borrowIndex);
  }

  /** Transfers and deficit cover touch neither indices nor totals: the audit stands as it is. */
  lemma TransferCovered(r: Reserve, a: Audit, e: Env, from: Address, to: Address, amount: nat)
    requires Covered(r, a) && TransferShares(r, e, from, to, amount).Ok?
    ensures Covered(TransferShares(r, e, from, to, amount).value, a)
  {
    if from != to {
      TransfersKeepBacked(r.supply, from, to, amount, CurrentLiquidityIndex(r.data, e.now).value);
    }
  }

  lemma CoverDeficitCovered(r: Reserve, a: Audit, externalsOk: bool, amount: nat)
    requires Covered(r, a) && CoverDeficit(r, externalsOk, amount).Ok?
    ensures Covered(CoverDeficit(r, externalsOk, amount).value.0, a)
  {
  }

  /** Paying the treasury may cost one ray; a call that finds nothing to collect costs nothing. */
  function CollectionCharge(paid: bool): nat {
    if paid then RAY else 0
  }

  /** Collection leaves at least the displayed claims behind: at most one ray short of the exact ones. */
  lemma CollectCovered(r: Reserve, a: Audit, now: nat, treasurySet: bool)
    requires Covered(r, a) && CollectReserves(r, now, treasurySet).Ok?
    ensures var (a', (r', paid)) := (AfterAccrual(r, a, now), CollectReserves(r, now, treasurySet).value);
            && Covered(r', Audit(a'.budget + CollectionCharge(paid > 0), a'.slack))
            && r'.cash + paid == r.cash
            && (paid > 0 ==> Margin(r') + RAY >= 0)
  {
    AccrualCovered(r, a, now);
  }

  lemma PokeCovered(r: Reserve, a: Audit, now: nat)
    requires Covered(r, a) && Poke(r, now).Ok?
    ensures Covered(Poke(r, now).value, AfterAccrual(r, a, now))
  {
    AccrualCovered(r, a, now);
  }

  lemma NewReserveCovered(now: nat, config: Config)
    ensures Covered(NewReserve(now, config), Audit(0, 0))
  {
  }
}
