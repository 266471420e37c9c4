/**
 Liquidations: a debt reserve and a collateral reserve moved together. `liquidation_call` takes the
 repayment from the liquidator; `execute_liquidation` is the second step of the prepared flash variant.
 */
module Liquidations {
  import opened Common
  import opened RayMath
  import opened Tokens
  import opened Reserves

  const MIN_CLOSE_FACTOR_THRESHOLD: nat := 2_000 * WAD
  const MIN_LEFTOVER_BASE: nat := 1_000 * WAD
  const DEFAULT_CLOSE_FACTOR: nat := 5_000
  const MAX_CLOSE_FACTOR: nat := 10_000

  /** What a liquidation meets outside the two ledgers. The health factor is the borrower's full one. */
  datatype LiquidationEnv = LiquidationEnv(
    now: nat, debtParams: ValidParams, collateralParams: ValidParams, poolPaused: bool, externalsOk: bool,
    liquidatorRoom: bool, treasury: Option<Address>, treasuryRoom: bool, debtPrice: nat, collateralPrice: nat,
    oracleToWad: nat, healthFactor: nat, partialThreshold: nat, feeBps: nat)

  /** An amount in base currency: the product is exact, the division floors. */
  function ValueInBase(amount: nat, price: nat, oracleToWad: nat, decimalsPow: nat): Result<nat>
    requires decimalsPow > 0
  {
    Fit(Quotient(Times(Times(amount, price), oracleToWad), decimalsPow))
  }

  lemma Pow10Positive(n: nat)
    ensures Pow10(n) > 0
  {
  }

  function DecimalsPow(d: Data): (r: Result<nat>)
    ensures r.Ok? ==> r.value > 0
  {
    Pow10Positive(d.config.decimals);
    Fit(Pow10(d.config.decimals))
  }

  /** Small or deeply unhealthy positions may be closed whole, others by half. */
  function ValidateCloseFactor(e: LiquidationEnv, debtBase: nat, collateralBase: nat, coverBase: nat): Result<()> {
    var factor :=
      if debtBase < MIN_CLOSE_FACTOR_THRESHOLD || collateralBase < MIN_CLOSE_FACTOR_THRESHOLD
         || e.healthFactor < e.partialThreshold then MAX_CLOSE_FACTOR
      else DEFAULT_CLOSE_FACTOR;
    var product :- Fit(Times(debtBase, factor));
    Need(coverBase <= product / BASIS_POINTS, LiquidationAmountTooHigh)
  }

  /** Collateral units worth the covered debt plus the bonus. */
  function SeizeAmount(collateral: Data, debt: Data, cover: nat, e: LiquidationEnv): Result<nat>
  {
    var debtPow :- DecimalsPow(debt);
    var collateralPow :- DecimalsPow(collateral);
    var base :- ValueInBase(cover, e.debtPrice, e.oracleToWad, debtPow);
    var unit := Times(e.collateralPrice, e.oracleToWad);
    if unit == 0 then
      Err(MathOverflow)
    else
      var _ :- Fit(Quotient(Times(base, collateralPow), unit));
      var bonus :- Fit(Times(base, collateral.config.liquidationBonus) / BASIS_POINTS);
      var withBonus :- Fit(base + bonus);
      Fit(Quotient(Times(withBonus, collateralPow), unit))
  }

  /**
   What a liquidation settles: `requested` is the debt to cover after the dust clamp, `wanted` the
   collateral it is worth; `cover` and `seized` are what the borrower's collateral allows.
   */
  datatype Plan = Plan(
    debtBalance: nat, collateralBalance: nat, requested: nat, wanted: nat, cover: nat, seized: nat, capped: bool)

  /** Covering all but a dust remainder becomes covering everything. */
  function ClampDust(d: Data, debtBalance: nat, cover: nat): Result<nat> {
    if cover >= debtBalance || d.config.minRemainingDebt == 0 then Ok(cover)
    else
      var least :- InUnits(d.config.minRemainingDebt, d.config.decimals);
      Ok(if debtBalance - cover < least then debtBalance else cover)
  }

  /** When the collateral does not suffice, the repayment shrinks to its share, rounded up. */
  function CapPlan(debtBalance: nat, collateralBalance: nat, requested: nat, wanted: nat): Result<Plan> {
    if wanted > collateralBalance then
      var cover :- Fit(Quotient(Times(requested, collateralBalance) + wanted - 1, wanted));
      Ok(Plan(debtBalance, collateralBalance, requested, wanted, cover, collateralBalance, true))
    else
      Ok(Plan(debtBalance, collateralBalance, requested, wanted, requested, wanted, false))
  }

  /** The balances the account computation cached: absent without a flag, zero for an unset flag. */
  function CachedCollateral(r: Reserve, user: Address): Result<nat> {
    if user in r.collateralBits then BalanceWithIndex(r.supply, user, r.data.liquidityIndex)
    else if user in r.borrowBits then Ok(0)
    else Err(InsufficientCollateral)
  }

  function CachedDebt(r: Reserve, user: Address): Result<nat> {
    if user in r.borrowBits then BalanceWithIndex(r.debt, user, r.data.borrowIndex)
    else if user in r.collateralBits then Ok(0)
    else Err(NoDebtOfRequestedType)
  }

  /** The checks both liquidations share, on reserves whose indices are up to date. */
  function CheckLiquidation(debt: Reserve, collateral: Reserve, e: LiquidationEnv, user: Address, cover: nat)
    : Result<(nat, nat)>
  {
    var _ :- Need(e.externalsOk, ExternalCallFailed);
    var _ :- Need(e.debtPrice > 0 && e.collateralPrice > 0 && e.oracleToWad > 0, PriceOracleNotFound);
    var _ :- Need(e.healthFactor < WAD, InvalidLiquidation);
    var _ :- Need(!e.poolPaused, AssetPaused);
    var _ :- Need(cover > 0, InvalidAmount);
    var debtBalance :- CachedDebt(debt, user);
    var collateralBalance :- CachedCollateral(collateral, user);
    var debtPow :- DecimalsPow(debt.data);
    var collateralPow :- DecimalsPow(collateral.data);
    var debtBase :- ValueInBase(debtBalance, e.debtPrice, e.oracleToWad, debtPow);
    var collateralBase :- ValueInBase(collateralBalance, e.collateralPrice, e.oracleToWad, collateralPow);
    var coverBase :- ValueInBase(cover, e.debtPrice, e.oracleToWad, debtPow);
    var _ :- ValidateCloseFactor(e, debtBase, collateralBase, coverBase);
    var _ :- FitSigned(cover);
    Ok((debtBalance, collateralBalance))
  }

  function MakePlan(debt: Reserve, collateral: Reserve, e: LiquidationEnv, user: Address, cover: nat): Result<Plan> {
    var _ :- Need(debt.data.config.active && collateral.data.config.active, AssetNotActive);
    var _ :- Need(!debt.data.config.paused && !collateral.data.config.paused, AssetPaused);
    var balances :- CheckLiquidation(debt, collateral, e, user, cover);
    var requested :- ClampDust(debt.data, balances.0, cover);
    var wanted :- SeizeAmount(collateral.data, debt.data, requested, e);
    CapPlan(balances.0, balances.1, requested, wanted)
  }

  // ------------------------------------------------------------------ the debt side

  /**
   The liquidator's payment comes in and the debt is burned. When all collateral is gone, whatever debt
   the payment left is burned too and recorded as the reserve's deficit.
   */
  function SettleDebt(r: Reserve, user: Address, plan: Plan): Result<Reserve> {
    var _ :- FitSigned(plan.cover);
    var burned :- OrElse(DebtBurn(r.debt, user, plan.cover, r.data.borrowIndex), InsufficientCollateral);
    var paid := r.(debt := burned.state, cash := r.cash + plan.cover);
    if plan.debtBalance > plan.cover && plan.capped then
      var rest := plan.debtBalance - plan.cover;
      var cleared :- OrElse(DebtBurn(paid.debt, user, rest, r.data.borrowIndex), InsufficientCollateral);
      var deficit :- Fit(r.deficit + rest);
      Ok(paid.(debt := cleared.state, deficit := deficit, borrowBits := r.borrowBits - {user}))
    else if plan.debtBalance > plan.cover then
      var _ :- CheckMinDebt(r.data, plan.debtBalance - plan.cover, LeavesTooLittleDebt);
      Ok(paid)
    else if plan.debtBalance == plan.cover then
      Ok(paid.(borrowBits := r.borrowBits - {user}))
    else
      Ok(paid)
  }

  // ------------------------------------------------------------------ the collateral side

  /** The protocol's share of the seized collateral, priced from the repayment. */
  function FeeInCollateral(plan: Plan, e: LiquidationEnv, debtPow: nat, collateralPow: nat): Result<nat>
    requires e.collateralPrice > 0 && debtPow > 0
  {
    if e.feeBps == 0 then Ok(0)
    else
      var feeDebt :- PercentMulUp(plan.cover, e.feeBps);
      var fee :- Fit(Quotient(Quotient(Times(Times(feeDebt, e.debtPrice), collateralPow), e.collateralPrice), debtPow));
      if plan.seized > fee then Ok(fee) else Err(MathOverflow)
  }

  /** Shares move to the liquidator, and the fee to the treasury if there is one. */
  function SeizeAsShares(r: Reserve, e: LiquidationEnv, user: Address, liquidator: Address, net: nat, fee: nat)
    : Result<(Reserve, nat)>
  {
    var first :- OrElse(TransferOnLiquidation(r.supply, user, liquidator, net, r.data.liquidityIndex),
                        InsufficientCollateral);
    var joins := first.0 && liquidator !in r.collateralBits;
    var _ :- Need(!joins || e.liquidatorRoom, InvalidLiquidation);
    var bits := if joins then r.collateralBits + {liquidator} else r.collateralBits;
    if fee > 0 && e.treasury.Some? then
      var t := e.treasury.value;
      var second :- OrElse(TransferOnLiquidation(first.1, user, t, fee, r.data.liquidityIndex), InsufficientCollateral);
      var bits' := if second.0 && t !in bits && e.treasuryRoom then bits + {t} else bits;
      Ok((r.(supply := second.1, collateralBits := bits'), net + fee))
    else
      Ok((r.(supply := first.1, collateralBits := bits), net))
  }

  /** Shares are burned and cash leaves for the treasury (if there is one) and the liquidator. */
  function SeizeAsCash(r: Reserve, e: LiquidationEnv, user: Address, net: nat, fee: nat): Result<(Reserve, nat)> {
    var burned :- OrElse(ATokenBurn(r.supply, user, net + fee, r.data.liquidityIndex), InsufficientCollateral);
    var outflow := net + if fee > 0 && e.treasury.Some? then fee else 0;
    var _ :- Need(outflow <= r.cash, InsufficientLiquidity);
    Ok((r.(supply := burned.state, cash := r.cash - outflow), net + fee))
  }

  /** Returns the new state and the collateral left to the borrower on display. */
  function SettleCollateral(
      r: Reserve, e: LiquidationEnv, user: Address, liquidator: Address, plan: Plan, fee: nat, asShares: bool)
    : Result<(Reserve, nat)>
    requires fee <= plan.seized
  {
    var taken :- if asShares then SeizeAsShares(r, e, user, liquidator, plan.seized - fee, fee)
                 else SeizeAsCash(r, e, user, plan.seized - fee, fee);
    if taken.1 > plan.collateralBalance then
      Err(InsufficientCollateral)
    else
      var left := plan.collateralBalance - taken.1;
      var bits := if left == 0 then taken.0.collateralBits - {user} else taken.0.collateralBits;
      Ok((taken.0.(collateralBits := bits), left))
  }

  /** A partial liquidation must leave both positions worth liquidating again, or close one of them. */
  function CheckLeftovers(debtLeft: nat, collateralLeft: nat, e: LiquidationEnv, debtPow: nat, collateralPow: nat)
    : Result<()>
    requires debtPow > 0 && collateralPow > 0
  {
    if debtLeft == 0 || collateralLeft == 0 then Ok(())
    else
      var debtValue :- ValueInBase(debtLeft, e.debtPrice, e.oracleToWad, debtPow);
      var collateralValue :- ValueInBase(collateralLeft, e.collateralPrice, e.oracleToWad, collateralPow);
      Need(debtValue >= MIN_LEFTOVER_BASE && collateralValue >= MIN_LEFTOVER_BASE, LeavesTooLittleDebt)
  }

  datatype Pair = Pair(debt: Reserve, collateral: Reserve)

  /** Both reserves with their indices at `now`. */
  function AccruePair(p: Pair, now: nat): Result<Pair> {
    var debtData :- Accrue(p.debt.data, now);
    var collateralData :- Accrue(p.collateral.data, now);
    Ok(Pair(p.debt.(data := debtData), p.collateral.(data := collateralData)))
  }

  function RefreshPair(p: Pair, debtParams: ValidParams, collateralParams: ValidParams): Result<Pair> {
    var debt :- RefreshRates(p.debt, debtParams);
    var collateral :- RefreshRates(p.collateral, collateralParams);
    Ok(Pair(debt, collateral))
  }

  /** Both sides of liquidation_call settled by one plan. */
  function SettleBoth(p: Pair, e: LiquidationEnv, liquidator: Address, user: Address, plan: Plan, asShares: bool)
    : Result<Pair>
  {
    var debtPow :- DecimalsPow(p.debt.data);
    var collateralPow :- DecimalsPow(p.collateral.data);
    if e.collateralPrice == 0 then
      Err(PriceOracleNotFound)
    else
      var debt :- SettleDebt(p.debt, user, plan);
      var fee :- FeeInCollateral(plan, e, debtPow, collateralPow);
      var collateral :- SettleCollateral(p.collateral, e, user, liquidator, plan, fee, asShares);
      var debtLeft := if plan.capped || plan.debtBalance <= plan.cover then 0 else plan.debtBalance - plan.cover;
      var _ :- CheckLeftovers(debtLeft, collateral.1, e, debtPow, collateralPow);
      Ok(Pair(debt, collateral.0))
  }

  /** The moves of liquidation_call on reserves already accrued, together with the plan it followed. */
  function LiquidationMoves(
      p: Pair, e: LiquidationEnv, liquidator: Address, user: Address, cover: nat, asShares: bool)
    : Result<(Pair, Plan)>
  {
    var plan :- MakePlan(p.debt, p.collateral, e, user, cover);
    var settled :- SettleBoth(p, e, liquidator, user, plan, asShares);
    Ok((settled, plan))
  }

  function LiquidationCall(
      p: Pair, e: LiquidationEnv, liquidator: Address, user: Address, cover: nat, asShares: bool): Result<Pair>
  {
    var accrued :- AccruePair(p, e.now);
    var moved :- LiquidationMoves(accrued, e, liquidator, user, cover, asShares);
    RefreshPair(moved.0, e.debtParams, e.collateralParams)
  }

  // ------------------------------------------------------------------ the prepared variant

  /** What prepare_liquidation authorized: the debt to cover and the most collateral to seize. */
  datatype Authorization = Authorization(debtToCover: nat, collateralToSeize: nat)

  /** The callback's burns, then the bad-debt burn; what is left is read off the remaining shares. */
  function FlashSettleDebt(r: Reserve, user: Address, cover: nat, capped: bool): Result<(Reserve, nat)> {
    var burned :- DebtBurn(r.debt, user, cover, r.data.borrowIndex);
    var left :- RayMul(burned.userScaled, r.data.borrowIndex);
    var left :- FitSigned(left);
    if capped && left > 0 then
      var cleared :- OrElse(DebtBurn(burned.state, user, left, r.data.borrowIndex), InsufficientCollateral);
      var deficit :- Fit(r.deficit + left);
      Ok((r.(debt := cleared.state, deficit := deficit, borrowBits := r.borrowBits - {user}), 0))
    else
      var _ :- if left > 0 then CheckMinDebt(r.data, left, InvalidLiquidation) else Ok(());
      var bits := if left == 0 then r.borrowBits - {user} else r.borrowBits;
      Ok((r.(debt := burned.state, borrowBits := bits), left))
  }

  function FlashSettleCollateral(r: Reserve, user: Address, seized: nat): Result<(Reserve, nat)> {
    var paid :- ATokenBurnAndTransfer(r.supply, user, seized, r.data.liquidityIndex);
    var _ :- Need(paid.actual <= r.cash, InsufficientLiquidity);
    var left :- RayMul(paid.userScaled, r.data.liquidityIndex);
    var left :- FitSigned(left);
    var bits := if left == 0 then r.collateralBits - {user} else r.collateralBits;
    Ok((r.(supply := paid.state, cash := r.cash - paid.actual, collateralBits := bits), left))
  }

  /** What execute_liquidation settles: the authorized seizure is an upper bound, and the cover must be lendable. */
  function FlashPlan(p: Pair, e: LiquidationEnv, user: Address, auth: Authorization): Result<Plan> {
    var balances :- CheckLiquidation(p.debt, p.collateral, e, user, auth.debtToCover);
    var requested :- ClampDust(p.debt.data, balances.0, auth.debtToCover);
    var computed :- SeizeAmount(p.collateral.data, p.debt.data, requested, e);
    var plan :- CapPlan(balances.0, balances.1, requested, Min(computed, auth.collateralToSeize));
    var _ :- Need(0 < plan.cover <= p.debt.cash && plan.seized > 0, FlashLoanExecutionFailed);
    Ok(plan)
  }

  function FlashMoves(p: Pair, e: LiquidationEnv, user: Address, auth: Authorization): Result<(Pair, Plan)> {
    var plan :- FlashPlan(p, e, user, auth);
    var debtPow :- DecimalsPow(p.debt.data);
    var collateralPow :- DecimalsPow(p.collateral.data);
    var debt :- FlashSettleDebt(p.debt, user, plan.cover, plan.capped);
    var collateral :- FlashSettleCollateral(p.collateral, user, plan.seized);
    var _ :- CheckLeftovers(debt.1, collateral.1, e, debtPow, collateralPow);
    Ok((Pair(debt.0, collateral.0), plan))
  }

  /** The debt reserve lends the cover out and gets the same amount back, so its cash ends where it was. */
  function ExecuteLiquidation(p: Pair, e: LiquidationEnv, user: Address, auth: Authorization): Result<Pair> {
    var accrued :- AccruePair(p, e.now);
    var moved :- FlashMoves(accrued, e, user, auth);
    RefreshPair(moved.0, e.debtParams, e.collateralParams)
  }

  /**
   The same call with one asset on both sides, which the router does not refuse up front: the seized
   collateral leaves the very aToken that must hold its starting balance again when the loan is checked.
   */
  function ExecuteOnOne(r: Reserve, e: LiquidationEnv, user: Address, auth: Authorization): Result<Reserve> {
    var data :- Accrue(r.data, e.now);
    var start := r.(data := data);
    var plan :- FlashPlan(Pair(start, start), e, user, auth);
    var debt :- FlashSettleDebt(start, user, plan.cover, plan.capped);
    var settled :- FlashSettleCollateral(debt.0, user, plan.seized);
    var _ :- Need(settled.0.cash >= start.cash, FlashLoanNotRepaid);
    RefreshRates(settled.0, e.debtParams)
  }

  /** A seizure that succeeds always takes cash out, so it costs the reserve at least one unit of it. */
  lemma FlashSeizureLowersCash(r: Reserve, user: Address, seized: nat)
    requires r.data.liquidityIndex >= RAY && FlashSettleCollateral(r, user, seized).Ok?
    ensures FlashSettleCollateral(r, user, seized).value.0.cash < r.cash
  {
    var paid := ATokenBurnAndTransfer(r.supply, user, seized, r.data.liquidityIndex).value;
    assert MulDown(paid.burned, r.data.liquidityIndex) >= 1 by {
      MulMonotone(1, paid.burned, RAY, r.data.liquidityIndex);
    }
  }

  // ------------------------------------------------------------------ what a capped liquidation settles

  /**
   The capped repayment never exceeds the request, covers at least its share of the collateral seized,
   and exceeds that share by less than one unit; an uncapped plan settles what was asked.
   */
  lemma CapIsProRata(debtBalance: nat, collateralBalance: nat, requested: nat, wanted: nat)
    requires CapPlan(debtBalance, collateralBalance, requested, wanted).Ok?
    ensures var plan := CapPlan(debtBalance, collateralBalance, requested, wanted).value;
            && plan.capped == (wanted > collateralBalance)
            && plan.cover <= requested && plan.seized <= wanted && plan.seized <= collateralBalance
            && requested * plan.seized <= plan.cover * wanted
            && (wanted > 0 ==> plan.cover * wanted < requested * plan.seized + wanted)
  {
    if wanted > collateralBalance {
      var cover := CapPlan(debtBalance, collateralBalance, requested, wanted).value.cover;
      MulMonotone(requested, requested, collateralBalance, wanted);
      CompareQuotients(cover, requested, wanted);
    }
  }

  /** Two floor burns that together name the displayed debt leave at most two of its shares. */
  lemma TwoBurnsLeaveTwo(scaled: nat, index: nat, shown: nat, first: nat, second: nat, a: nat, b: nat)
    requires index >= RAY
    requires scaled * index - HALF_RAY < shown * RAY
    requires first + second == shown
    requires first * RAY < a * index + index && second * RAY < b * index + index
    ensures scaled <= a + b + 2
  {
    assert (a + b + 2) * index == (a * index + index) + (b * index + index);
    assert scaled * index < (a + b + 2) * index + index;
    CompareQuotients(scaled, a + b + 2, index);
  }

  lemma OverpaymentShares(owed: nat, amount: nat, index: nat)
    requires index >= RAY && amount > MulNear(owed, index)
    ensures owed <= DivDown(amount, index) + 1
  {
    var scaled := DivDown(amount, index);
    assert (scaled + 1) * index == scaled * index + index;
    CompareQuotients(owed, scaled + 1, index);
  }

  /** A burn of more than the displayed debt finds no shares left over, or is refused. */
  lemma OverpaymentClears(s: Scaled, user: Address, amount: nat, index: nat)
    requires index >= RAY && amount > MulNear(s.Of(user), index) && DebtBurn(s, user, amount, index).Ok?
    ensures DebtBurn(s, user, amount, index).value.userScaled == 0
  {
    hide MulNear, DivDown;
    OverpaymentShares(s.Of(user), amount, index);
  }

  /**
   A capped liquidation accounts for the whole displayed debt: what was paid plus the new deficit is the
   debt balance, or the payment where that is larger. The two burns leave either nothing or exactly two
   debt shares: a remainder of one would have been cleared as dust. The flag goes whatever is left, unless
   the payment exceeds the displayed debt, and then nothing is left.
   */
  lemma CappedAccountsForDebt(r: Reserve, user: Address, plan: Plan)
    requires Backed(r.debt) && r.data.borrowIndex >= RAY
    requires BalanceWithIndex(r.debt, user, r.data.borrowIndex) == Ok(plan.debtBalance)
    requires plan.capped && SettleDebt(r, user, plan).Ok?
    ensures var r' := SettleDebt(r, user, plan).value;
            && (r'.cash - r.cash) + (r'.deficit - r.deficit) == Max(plan.debtBalance, plan.cover)
            && r'.borrowBits == (if plan.cover <= plan.debtBalance then r.borrowBits - {user} else r.borrowBits)
            && (r'.debt.Of(user) == 0 || (r'.debt.Of(user) == 2 && plan.cover < plan.debtBalance))
  {
    var index := r.data.borrowIndex;
    var a := DivDown(plan.cover, index);
    if plan.debtBalance > plan.cover {
      var rest := plan.debtBalance - plan.cover;
      TwoBurnsLeaveTwo(r.debt.Of(user), index, plan.debtBalance, plan.cover, rest, a, DivDown(rest, index));
    } else if plan.debtBalance == plan.cover {
      FullDebtExit(r.debt, user, index, plan.debtBalance);
    } else {
      OverpaymentClears(r.debt, user, plan.cover, index);
    }
  }

  /** When debt survives a capped settlement, in terms of the two amounts alone. */
  ghost predicate LeavesTwo(plan: Plan, index: nat, shares: nat) {
    && index > 0 && plan.capped && plan.cover < plan.debtBalance
    && DivDown(plan.cover, index) + DivDown(plan.debtBalance - plan.cover, index) + 2 == shares
  }

  /**
   Debt survives a capped liquidation exactly when both repayments round down to shares that together fall
   two short.
   */
  lemma CappedLeavesDebtIff(r: Reserve, user: Address, plan: Plan)
    requires Backed(r.debt) && r.data.borrowIndex >= RAY
    requires BalanceWithIndex(r.debt, user, r.data.borrowIndex) == Ok(plan.debtBalance)
    requires plan.capped && SettleDebt(r, user, plan).Ok?
    ensures SettleDebt(r, user, plan).value.debt.Of(user) > 0 <==>
              LeavesTwo(plan, r.data.borrowIndex, r.debt.Of(user))
  {
    CappedAccountsForDebt(r, user, plan);
  }
}
