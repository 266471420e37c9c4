/**
 What the two liquidations do, in amounts: what the checks let through, what the plan settles, what the borrower's
 debt and collateral lose, where the seized collateral and its fee go, and which flags are left.
 */
module LiquidationEffects {
  import opened Common
  import opened RayMath
  import opened Tokens
  import opened Reserves
  import opened Solvency
  import opened Liquidations
  import opened CrossSolvency
  import opened Effects

  // ------------------------------------------------------------------ what may be covered and seized

  /** At most half of the debt's value may be covered unless a side is small or the health factor is low. */
  lemma CloseFactorBounds(e: LiquidationEnv, debtBase: nat, collateralBase: nat, coverBase: nat)
    requires ValidateCloseFactor(e, debtBase, collateralBase, coverBase).Ok?
    ensures coverBase <= debtBase
    ensures (debtBase >= MIN_CLOSE_FACTOR_THRESHOLD && collateralBase >= MIN_CLOSE_FACTOR_THRESHOLD
             && e.healthFactor >= e.partialThreshold) ==> 2 * coverBase <= debtBase
  {
  }

  /** And wherever the products fit, nothing more is asked. */
  lemma CloseFactorSuffices(e: LiquidationEnv, debtBase: nat, collateralBase: nat, coverBase: nat)
    requires debtBase * MAX_CLOSE_FACTOR <= U128_MAX && coverBase <= debtBase
    requires (debtBase >= MIN_CLOSE_FACTOR_THRESHOLD && collateralBase >= MIN_CLOSE_FACTOR_THRESHOLD
              && e.healthFactor >= e.partialThreshold) ==> 2 * coverBase <= debtBase
    ensures ValidateCloseFactor(e, debtBase, collateralBase, coverBase).Ok?
  {
  }

  lemma BonusBounded(base: nat, bonus: nat)
    ensures (base + Times(base, bonus) / BASIS_POINTS) * BASIS_POINTS <= base * (BASIS_POINTS + bonus)
  {
    assert base * (BASIS_POINTS + bonus) == base * BASIS_POINTS + base * bonus;
  }

  lemma ScaleUp(a: nat, b: nat)
    requires a <= b
    ensures a * BASIS_POINTS <= b * BASIS_POINTS
  {
  }

  lemma WorthBounded(wanted: nat, price: nat, oracleToWad: nat, pow: nat, limit: nat)
    requires pow > 0 && Times(price, oracleToWad) > 0
    requires wanted == Quotient(Times(limit, pow), Times(price, oracleToWad))
    ensures Quotient(Times(Times(wanted, price), oracleToWad), pow) <= limit
  {
    assert Times(Times(wanted, price), oracleToWad) == wanted * Times(price, oracleToWad);
    CompareQuotients(Quotient(Times(Times(wanted, price), oracleToWad), pow), limit, pow);
  }

  /** The collateral computed for a repayment is worth at most the repayment plus the bonus. */
  lemma SeizureWithinBonus(collateral: Data, debt: Data, cover: nat, e: LiquidationEnv)
    requires SeizeAmount(collateral, debt, cover, e).Ok?
    ensures DecimalsPow(debt).Ok? && DecimalsPow(collateral).Ok?
    ensures ValueInBase(cover, e.debtPrice, e.oracleToWad, DecimalsPow(debt).value).Ok?
    ensures var base := ValueInBase(cover, e.debtPrice, e.oracleToWad, DecimalsPow(debt).value).value;
            var wanted := SeizeAmount(collateral, debt, cover, e).value;
            var worth := ValueInBase(wanted, e.collateralPrice, e.oracleToWad, DecimalsPow(collateral).value);
            worth.Ok? && worth.value * BASIS_POINTS <= base * (BASIS_POINTS + collateral.config.liquidationBonus)
  {
    hide DecimalsPow;
    var pow := DecimalsPow(collateral).value;
    var base := ValueInBase(cover, e.debtPrice, e.oracleToWad, DecimalsPow(debt).value).value;
    var withBonus := base + Times(base, collateral.config.liquidationBonus) / BASIS_POINTS;
    WorthBounded(SeizeAmount(collateral, debt, cover, e).value, e.collateralPrice, e.oracleToWad, pow, withBonus);
    BonusBounded(base, collateral.config.liquidationBonus);
    ScaleUp(Quotient(Times(Times(SeizeAmount(collateral, debt, cover, e).value, e.collateralPrice), e.oracleToWad),
        pow), withBonus);
    hide ValueInBase, SeizeAmount;
  }

  /** The repayment's value with the bonus on top, which the seizure is worth to the last unit of collateral. */
  function WithBonus(base: nat, bonus: nat): nat {
    base + base * bonus / BASIS_POINTS
  }

  /** The collateral computed for a repayment is the most that is worth no more than the repayment and the bonus. */
  lemma SeizureIsBonus(collateral: Data, debt: Data, cover: nat, e: LiquidationEnv)
    requires SeizeAmount(collateral, debt, cover, e).Ok?
    ensures DecimalsPow(debt).Ok? && DecimalsPow(collateral).Ok?
    ensures ValueInBase(cover, e.debtPrice, e.oracleToWad, DecimalsPow(debt).value).Ok?
    ensures var base := ValueInBase(cover, e.debtPrice, e.oracleToWad, DecimalsPow(debt).value).value;
            var (wanted, unit) := (SeizeAmount(collateral, debt, cover, e).value, e.collateralPrice * e.oracleToWad);
            var limit := WithBonus(base, collateral.config.liquidationBonus) * DecimalsPow(collateral).value;
            wanted * unit <= limit < (wanted + 1) * unit
  {
    hide DecimalsPow, ValueInBase;
    var wanted := SeizeAmount(collateral, debt, cover, e).value;
    assert (wanted + 1) * (e.collateralPrice * e.oracleToWad)
        == wanted * (e.collateralPrice * e.oracleToWad) + e.collateralPrice * e.oracleToWad;
  }

  /** Seized in cash: the seized amount leaves in full, or less the fee when there is no treasury to pay. */
  lemma SeizeAsCashEffect(r: Reserve, e: LiquidationEnv, user: Address, net: nat, fee: nat)
    requires Sound(r) && SeizeAsCash(r, e, user, net, fee).Ok?
    ensures var r' := SeizeAsCash(r, e, user, net, fee).value.0;
            var (index, burned) := (r.data.liquidityIndex, r.supply.Of(user) - r'.supply.Of(user));
            && r.cash - r'.cash == net + (if e.treasury.Some? then fee else 0)
            && OneHolderChanged(r.supply, r'.supply, user)
            && (burned * index >= (net + fee) * RAY || r'.supply.Of(user) == 0)
            && burned * index < (net + fee) * RAY + index
            && r'.collateralBits == r.collateralBits && DebtSideKept(r, r')
  {
    BurnsKeepBacked(r.supply, user, net + fee, r.data.liquidityIndex);
    SupplyBurnCovers(r.supply, user, net + fee, r.data.liquidityIndex);
    BurnBelowOneShare(r.supply, user, net + fee, r.data.liquidityIndex);
    hide ATokenBurn, DivUp;
  }

  /** The shares a seizure and its fee move; no fee moves without a treasury. */
  function FeeShares(e: LiquidationEnv, fee: nat, index: nat): nat
    requires index > 0
  {
    if fee > 0 && e.treasury.Some? then DivDown(fee, index) else 0
  }

  lemma MoveNeedsShares(s: Scaled, from: Address, to: Address, shares: nat)
    requires Move(s, from, to, shares).Ok?
    ensures s.Of(from) >= shares
  {
  }

  lemma TransferMoves(s: Scaled, from: Address, to: Address, amount: nat, index: nat)
    requires TransferOnLiquidation(s, from, to, amount, index).Ok?
    ensures index > 0 && Move(s, from, to, DivDown(amount, index))
        == Ok(TransferOnLiquidation(s, from, to, amount, index).value.1)
  {
    hide DivDown;
  }

  /**
   Seized as shares: cash and total stay, and every holder ends with what it had, less what it gave up as the
   borrower, plus what it received as the liquidator or the treasury. The three need not be different, so a
   borrower who liquidates itself keeps the shares and pays the fee only.
   */
  lemma SeizeAsSharesEffect(
      r: Reserve, e: LiquidationEnv, user: Address, liquidator: Address, net: nat, fee: nat, holder: Address)
    requires Sound(r) && SeizeAsShares(r, e, user, liquidator, net, fee).Ok?
    ensures var r' := SeizeAsShares(r, e, user, liquidator, net, fee).value.0;
            var (index, taken) := (r.data.liquidityIndex, DivDown(net, r.data.liquidityIndex));
            var feeShares := FeeShares(e, fee, index);
            && r'.cash == r.cash && r'.supply.total == r.supply.total && DebtSideKept(r, r')
            && r'.supply.Of(holder) + (if holder == user then taken + feeShares else 0)
               == r.supply.Of(holder) + (if holder == liquidator then taken else 0)
                  + (if e.treasury == Some(holder) then feeShares else 0)
            && r.supply.Of(user) >= taken
  {
    hide DivDown, Move, TransferOnLiquidation, OneHolderChanged;
    var index := r.data.liquidityIndex;
    var first := TransferOnLiquidation(r.supply, user, liquidator, net, index).value.1;
    TransferMoves(r.supply, user, liquidator, net, index);
    MoveConserves(r.supply, user, liquidator, DivDown(net, index));
    MoveNeedsShares(r.supply, user, liquidator, DivDown(net, index));
    if fee > 0 && e.treasury.Some? {
      TransferMoves(first, user, e.treasury.value, fee, index);
      MoveConserves(first, user, e.treasury.value, DivDown(fee, index));
    }
  }

  /** A transfer to somebody else is a first one exactly when the receiver held nothing. */
  lemma FirstShares(s: Scaled, from: Address, to: Address, amount: nat, index: nat)
    requires TransferOnLiquidation(s, from, to, amount, index).Ok? && from != to
    ensures var (first, s') := TransferOnLiquidation(s, from, to, amount, index).value;
            (first <==> s.Of(to) == 0) && (forall u :: u != from && u != to ==> s'.Of(u) == s.Of(u))
  {
    hide DivDown;
  }

  /**
   The flags of a seizure as shares: a liquidator that held nothing gets its flag and needs room for it; a treasury
   that held nothing gets its flag if there is room; nobody else's flag is touched.
   */
  lemma SeizeAsSharesFlags(
      r: Reserve, e: LiquidationEnv, user: Address, liquidator: Address, net: nat, fee: nat, holder: Address)
    requires SeizeAsShares(r, e, user, liquidator, net, fee).Ok?
    requires liquidator != user && e.treasury != Some(user) && e.treasury != Some(liquidator)
    ensures var r' := SeizeAsShares(r, e, user, liquidator, net, fee).value.0;
            && (r.supply.Of(liquidator) == 0 && liquidator !in r.collateralBits ==> e.liquidatorRoom)
            && (holder in r'.collateralBits <==>
                  || holder in r.collateralBits
                  || (holder == liquidator && r.supply.Of(liquidator) == 0)
                  || (e.treasury == Some(holder) && fee > 0 && r.supply.Of(holder) == 0 && e.treasuryRoom))
  {
    hide TransferOnLiquidation;
    var index := r.data.liquidityIndex;
    var first := TransferOnLiquidation(r.supply, user, liquidator, net, index).value;
    FirstShares(r.supply, user, liquidator, net, index);
    if fee > 0 && e.treasury.Some? {
      FirstShares(first.1, user, e.treasury.value, fee, index);
    }
  }

  // ------------------------------------------------------------------ what a plan settles

  /** The displayed balances a liquidation works with: an unset flag hides the balance. */
  function ShownDebt(r: Reserve, user: Address): nat {
    if user in r.borrowBits then MulNear(r.debt.Of(user), r.data.borrowIndex) else 0
  }

  function ShownCollateral(r: Reserve, user: Address): nat {
    if user in r.collateralBits then MulNear(r.supply.Of(user), r.data.liquidityIndex) else 0
  }

  function Value(amount: nat, price: nat, oracleToWad: nat, decimals: nat): nat {
    Pow10Positive(decimals);
    Quotient(Times(Times(amount, price), oracleToWad), Pow10(decimals))
  }

  /** What both liquidations check: an unhealthy account, live prices, a known position, and the close factor. */
  ghost predicate Liquidatable(debt: Reserve, collateral: Reserve, e: LiquidationEnv, user: Address, cover: nat) {
    && e.externalsOk && e.debtPrice > 0 && e.collateralPrice > 0 && e.oracleToWad > 0 && !e.poolPaused
    && e.healthFactor < WAD && 0 < cover <= I128_MAX
    && (user in debt.borrowBits || user in debt.collateralBits)
    && (user in collateral.collateralBits || user in collateral.borrowBits)
    && var owed := Value(ShownDebt(debt, user), e.debtPrice, e.oracleToWad, debt.data.config.decimals);
       var held := Value(ShownCollateral(collateral, user), e.collateralPrice, e.oracleToWad,
                         collateral.data.config.decimals);
       var covered := Value(cover, e.debtPrice, e.oracleToWad, debt.data.config.decimals);
       && covered <= owed
       && ((owed >= MIN_CLOSE_FACTOR_THRESHOLD && held >= MIN_CLOSE_FACTOR_THRESHOLD
            && e.healthFactor >= e.partialThreshold) ==> 2 * covered <= owed)
  }

  lemma CheckMeans(debt: Reserve, collateral: Reserve, e: LiquidationEnv, user: Address, cover: nat)
    requires CheckLiquidation(debt, collateral, e, user, cover).Ok?
    ensures Liquidatable(debt, collateral, e, user, cover)
    ensures CheckLiquidation(debt, collateral, e, user, cover).value
         == (ShownDebt(debt, user), ShownCollateral(collateral, user))
  {
    hide MulNear, Quotient, Times, Pow10;
    var (owed, held) := (ShownDebt(debt, user), ShownCollateral(collateral, user));
    CloseFactorBounds(e, Value(owed, e.debtPrice, e.oracleToWad, debt.data.config.decimals),
                      Value(held, e.collateralPrice, e.oracleToWad, collateral.data.config.decimals),
                      Value(cover, e.debtPrice, e.oracleToWad, debt.data.config.decimals));
  }

  /** Covering all but less than the configured minimum is covering everything; any other request stands. */
  lemma ClampMeans(d: Data, debtBalance: nat, cover: nat)
    requires ClampDust(d, debtBalance, cover).Ok?
    ensures ClampDust(d, debtBalance, cover).value
         == if cover < debtBalance && d.config.minRemainingDebt > 0
               && debtBalance - cover < LimitInUnits(d.config.minRemainingDebt, d) then debtBalance else cover
  {
    hide Pow10;
  }

  /** A plan takes what is wanted, or all there is and then the repayment's share of it, rounded up. */
  ghost predicate Settles(plan: Plan) {
    && plan.capped == (plan.wanted > plan.collateralBalance)
    && plan.seized == Min(plan.wanted, plan.collateralBalance)
    && (!plan.capped ==> plan.cover == plan.requested)
    && (plan.capped ==>
          plan.requested * plan.seized <= plan.cover * plan.wanted < plan.requested * plan.seized + plan.wanted)
  }

  lemma CapMeans(debtBalance: nat, collateralBalance: nat, requested: nat, wanted: nat)
    requires CapPlan(debtBalance, collateralBalance, requested, wanted).Ok?
    ensures var plan := CapPlan(debtBalance, collateralBalance, requested, wanted).value;
            && Settles(plan) && plan.debtBalance == debtBalance && plan.collateralBalance == collateralBalance
            && plan.requested == requested && plan.wanted == wanted
  {
    CapIsProRata(debtBalance, collateralBalance, requested, wanted);
  }

  /** The plan of liquidation_call. */
  lemma PlanMeans(debt: Reserve, collateral: Reserve, e: LiquidationEnv, user: Address, cover: nat)
    requires MakePlan(debt, collateral, e, user, cover).Ok?
    ensures debt.data.config.active && collateral.data.config.active
    ensures !debt.data.config.paused && !collateral.data.config.paused
    ensures Liquidatable(debt, collateral, e, user, cover)
    ensures var plan := MakePlan(debt, collateral, e, user, cover).value;
            && Settles(plan)
            && plan.debtBalance == ShownDebt(debt, user) && plan.collateralBalance == ShownCollateral(collateral, user)
            && ClampDust(debt.data, plan.debtBalance, cover) == Ok(plan.requested)
            && SeizeAmount(collateral.data, debt.data, plan.requested, e) == Ok(plan.wanted)
  {
    hide CheckLiquidation, ClampDust, SeizeAmount, CapPlan, Liquidatable, Settles;
    CheckMeans(debt, collateral, e, user, cover);
    var requested := ClampDust(debt.data, ShownDebt(debt, user), cover).value;
    CapMeans(ShownDebt(debt, user), ShownCollateral(collateral, user), requested,
             SeizeAmount(collateral.data, debt.data, requested, e).value);
  }

  /** The plan of execute_liquidation: the authorized seizure bounds it, and the cover must be there to lend. */
  lemma FlashPlanMeans(p: Pair, e: LiquidationEnv, user: Address, auth: Authorization)
    requires FlashPlan(p, e, user, auth).Ok?
    ensures Liquidatable(p.debt, p.collateral, e, user, auth.debtToCover)
    ensures var plan := FlashPlan(p, e, user, auth).value;
            && Settles(plan) && 0 < plan.cover <= p.debt.cash && 0 < plan.seized <= auth.collateralToSeize
            && plan.debtBalance == ShownDebt(p.debt, user)
            && plan.collateralBalance == ShownCollateral(p.collateral, user)
            && ClampDust(p.debt.data, plan.debtBalance, auth.debtToCover) == Ok(plan.requested)
            && SeizeAmount(p.collateral.data, p.debt.data, plan.requested, e).Ok?
            && plan.wanted
               == Min(SeizeAmount(p.collateral.data, p.debt.data, plan.requested, e).value, auth.collateralToSeize)
  {
    hide CheckLiquidation, ClampDust, SeizeAmount, CapPlan, Liquidatable;
    CheckMeans(p.debt, p.collateral, e, user, auth.debtToCover);
    var requested := ClampDust(p.debt.data, ShownDebt(p.debt, user), auth.debtToCover).value;
    var computed := SeizeAmount(p.collateral.data, p.debt.data, requested, e).value;
    CapMeans(ShownDebt(p.debt, user), ShownCollateral(p.collateral, user), requested,
             Min(computed, auth.collateralToSeize));
  }

  // ------------------------------------------------------------------ the debt side

  /** Whether a plan writes off what the payment leaves. */
  predicate WritesOff(plan: Plan) {
    plan.capped && plan.cover < plan.debtBalance
  }

  lemma HoldersCompose(s: Scaled, middle: Scaled, end: Scaled, user: Address)
    requires OneHolderChanged(s, middle, user) && OneHolderChanged(middle, end, user)
    ensures OneHolderChanged(s, end, user)
  {
    hide Backed;
  }

  lemma ChangedIsBacked(s: Scaled, s': Scaled, user: Address)
    requires OneHolderChanged(s, s', user)
    ensures Backed(s')
  {
  }

  /**
   The debt reserve of liquidation_call takes the payment into cash and burns it, within one share of its worth,
   from the borrower's debt alone. Only a write-off raises the deficit, by all that was not paid. The flag goes when
   the payment is the whole display or the rest is written off, and what else is left is at least the minimum.
   */
  lemma SettleDebtEffect(r: Reserve, user: Address, plan: Plan)
    requires Backed(r.debt) && SettleDebt(r, user, plan).Ok?
    ensures var r' := SettleDebt(r, user, plan).value;
            var (index, burned) := (r.data.borrowIndex, r.debt.Of(user) - r'.debt.Of(user));
            && r'.data == r.data && r'.supply == r.supply && r'.collateralBits == r.collateralBits
            && r'.cash == r.cash + plan.cover && plan.cover <= I128_MAX
            && r'.deficit == r.deficit + (if WritesOff(plan) then plan.debtBalance - plan.cover else 0)
            && OneHolderChanged(r.debt, r'.debt, user)
            && (!WritesOff(plan) ==>
                  burned * index <= plan.cover * RAY + index && plan.cover * RAY < burned * index + index)
            && r'.borrowBits == (if WritesOff(plan) || plan.cover == plan.debtBalance then r.borrowBits - {user}
                                 else r.borrowBits)
            && (!plan.capped && plan.cover < plan.debtBalance && r.data.config.minRemainingDebt > 0 ==>
                  plan.debtBalance - plan.cover >= LimitInUnits(r.data.config.minRemainingDebt, r.data))
  {
    hide DebtBurn, OneHolderChanged, Backed, Pow10;
    var index := r.data.borrowIndex;
    var first := DebtBurn(r.debt, user, plan.cover, index).value;
    BurnsKeepBacked(r.debt, user, plan.cover, index);
    DebtBurnWithinOneShare(r.debt, user, plan.cover, index);
    DebtBurnTakesItsWorth(r.debt, user, plan.cover, index);
    BurnSets(r.debt, user, plan.cover, index);
    if WritesOff(plan) {
      ChangedIsBacked(r.debt, first.state, user);
      BurnsKeepBacked(first.state, user, plan.debtBalance - plan.cover, index);
      HoldersCompose(r.debt, first.state, SettleDebt(r, user, plan).value.debt, user);
    }
  }

  // ------------------------------------------------------------------ the collateral side

  lemma NestedQuotient(n: nat, price: nat, pow: nat)
    requires price > 0 && pow > 0
    ensures var q := Quotient(Quotient(n, price), pow); q * (pow * price) <= n < (q + 1) * (pow * price)
  {
    var x := Quotient(n, price);
    var q := Quotient(x, pow);
    assert q * (pow * price) == (q * pow) * price;
    MulMonotone(q * pow, x, price, price);
    MulMonotone(x + 1, q * pow + pow, price, price);
    assert (q + 1) * (pow * price) == (q * pow + pow) * price;
    assert (x + 1) * price == x * price + price;
  }

  /** The protocol's fee is its percentage of the repayment, rounded up, in whole units of collateral. */
  lemma FeeMeans(plan: Plan, e: LiquidationEnv, debtPow: nat, collateralPow: nat)
    requires e.collateralPrice > 0 && debtPow > 0 && FeeInCollateral(plan, e, debtPow, collateralPow).Ok?
    ensures e.feeBps == 0 ==> FeeInCollateral(plan, e, debtPow, collateralPow).value == 0
    ensures e.feeBps > 0 ==>
              && PercentMulUp(plan.cover, e.feeBps).Ok?
              && var (part, fee) := (PercentMulUp(plan.cover, e.feeBps).value,
                                     FeeInCollateral(plan, e, debtPow, collateralPow).value);
                 && plan.cover * e.feeBps <= part * BASIS_POINTS < plan.cover * e.feeBps + BASIS_POINTS
                 && fee * (debtPow * e.collateralPrice) <= part * e.debtPrice * collateralPow
                    < (fee + 1) * (debtPow * e.collateralPrice)
                 && fee < plan.seized
  {
    hide PercentMulUp, Quotient;
    if e.feeBps > 0 {
      var part := PercentMulUp(plan.cover, e.feeBps).value;
      NestedQuotient(part * e.debtPrice * collateralPow, e.collateralPrice, debtPow);
    }
  }

  /** What leaves the borrower's displayed collateral: no fee leaves as shares without a treasury. */
  function Removed(e: LiquidationEnv, plan: Plan, fee: nat, asShares: bool): nat
    requires fee <= plan.seized
  {
    if asShares && e.treasury.None? then plan.seized - fee else plan.seized
  }

  lemma CashRemoved(r: Reserve, e: LiquidationEnv, user: Address, net: nat, fee: nat)
    requires SeizeAsCash(r, e, user, net, fee).Ok?
    ensures SeizeAsCash(r, e, user, net, fee).value.1 == net + fee
    ensures SeizeAsCash(r, e, user, net, fee).value.0.data == r.data
  {
    hide ATokenBurn;
  }

  lemma SharesRemoved(r: Reserve, e: LiquidationEnv, user: Address, liquidator: Address, net: nat, fee: nat)
    requires SeizeAsShares(r, e, user, liquidator, net, fee).Ok?
    ensures var (r', taken) := SeizeAsShares(r, e, user, liquidator, net, fee).value;
            && taken == net + (if e.treasury.Some? then fee else 0)
            && r'.data == r.data && r'.cash == r.cash && DebtSideKept(r, r')
  {
    hide TransferOnLiquidation;
  }

  /** The collateral reserve: only supply, cash and flags move, and the borrower's flag goes with the last unit. */
  lemma SettleCollateralEffect(
      r: Reserve, e: LiquidationEnv, user: Address, liquidator: Address, plan: Plan, fee: nat, asShares: bool)
    requires Sound(r) && fee <= plan.seized
    requires SettleCollateral(r, e, user, liquidator, plan, fee, asShares).Ok?
    ensures Removed(e, plan, fee, asShares) <= plan.collateralBalance
    ensures var (r', left) := SettleCollateral(r, e, user, liquidator, plan, fee, asShares).value;
            && r'.data == r.data && DebtSideKept(r, r')
            && left == plan.collateralBalance - Removed(e, plan, fee, asShares)
            && (left == 0 ==> user !in r'.collateralBits)
            && (left > 0 && !asShares ==> r'.collateralBits == r.collateralBits)
            && r'.cash + (if asShares then 0 else if e.treasury.Some? then plan.seized else plan.seized - fee) == r.cash
            && (!asShares ==>
                  var (index, burned) := (r.data.liquidityIndex, r.supply.Of(user) - r'.supply.Of(user));
                  && OneHolderChanged(r.supply, r'.supply, user)
                  && (burned * index >= plan.seized * RAY || r'.supply.Of(user) == 0)
                  && burned * index < plan.seized * RAY + index)
            && (asShares ==>
                  && SeizeAsShares(r, e, user, liquidator, plan.seized - fee, fee).Ok?
                  && var moved := SeizeAsShares(r, e, user, liquidator, plan.seized - fee, fee).value.0;
                     && r'.supply == moved.supply
                     && r'.collateralBits
                        == (if left == 0 then moved.collateralBits - {user} else moved.collateralBits))
  {
    hide SeizeAsCash, SeizeAsShares, OneHolderChanged;
    if asShares {
      SharesRemoved(r, e, user, liquidator, plan.seized - fee, fee);
    } else {
      SeizeAsCashEffect(r, e, user, plan.seized - fee, fee);
      CashRemoved(r, e, user, plan.seized - fee, fee);
    }
  }

  /** What is left on either side is nothing, or both are worth another liquidation. */
  lemma LeftoversMean(debtLeft: nat, collateralLeft: nat, e: LiquidationEnv, debtPow: nat, collateralPow: nat)
    requires debtPow > 0 && collateralPow > 0
    ensures CheckLeftovers(debtLeft, collateralLeft, e, debtPow, collateralPow).Ok? <==>
            || debtLeft == 0 || collateralLeft == 0
            || (&& ValueInBase(debtLeft, e.debtPrice, e.oracleToWad, debtPow).Ok?
                && ValueInBase(collateralLeft, e.collateralPrice, e.oracleToWad, collateralPow).Ok?
                && ValueInBase(debtLeft, e.debtPrice, e.oracleToWad, debtPow).value >= MIN_LEFTOVER_BASE
                && ValueInBase(collateralLeft, e.collateralPrice, e.oracleToWad, collateralPow).value
                   >= MIN_LEFTOVER_BASE)
  {
  }

  // ------------------------------------------------------------------ the whole of liquidation_call

  lemma AccrueKeepsSound(r: Reserve, now: nat)
    requires Sound(r) && Accrue(r.data, now).Ok?
    ensures Sound(r.(data := Accrue(r.data, now).value))
  {
    AccrualKeepsOrder(r.data, now);
  }

  lemma FeeWithin(plan: Plan, e: LiquidationEnv, debtPow: nat, collateralPow: nat)
    requires e.collateralPrice > 0 && debtPow > 0 && FeeInCollateral(plan, e, debtPow, collateralPow).Ok?
    ensures FeeInCollateral(plan, e, debtPow, collateralPow).value <= plan.seized
  {
  }

  /** The plan a successful liquidation_call follows, on the reserves with their indices brought up to date. */
  ghost predicate Follows(p: Pair, q: Pair, plan: Plan, e: LiquidationEnv, user: Address, cover: nat) {
    && AccruePair(p, e.now) == Ok(q) && MakePlan(q.debt, q.collateral, e, user, cover) == Ok(plan)
    && Settles(plan) && Liquidatable(q.debt, q.collateral, e, user, cover)
    && SeizeAmount(q.collateral.data, q.debt.data, plan.requested, e) == Ok(plan.wanted)
  }

  lemma LiquidationFollows(
      p: Pair, e: LiquidationEnv, liquidator: Address, user: Address, cover: nat, asShares: bool)
    returns (q: Pair, plan: Plan)
    requires LiquidationCall(p, e, liquidator, user, cover, asShares).Ok?
    ensures Follows(p, q, plan, e, user, cover)
  {
    hide Accrue, MakePlan, SettleBoth, RefreshRates, SeizeAmount, Liquidatable, Settles;
    q := AccruePair(p, e.now).value;
    plan := LiquidationMoves(q, e, liquidator, user, cover, asShares).value.1;
    PlanMeans(q.debt, q.collateral, e, user, cover);
  }

  lemma SoundIsBacked(r: Reserve)
    requires Sound(r)
    ensures Backed(r.supply) && Backed(r.debt)
  {
  }

  lemma DebtMoves(p: Pair, q: Pair, plan: Plan, e: LiquidationEnv, liquidator: Address, user: Address, cover: nat,
                  asShares: bool)
    requires LiquidationCall(p, e, liquidator, user, cover, asShares).Ok? && Follows(p, q, plan, e, user, cover)
    ensures q.debt == p.debt.(data := q.debt.data) && SettleDebt(q.debt, user, plan).Ok?
    ensures RefreshRates(SettleDebt(q.debt, user, plan).value, e.debtParams)
         == Ok(LiquidationCall(p, e, liquidator, user, cover, asShares).value.debt)
  {
    hide Accrue, MakePlan, SettleDebt, SettleCollateral, CheckLeftovers, RefreshRates, FeeInCollateral, SeizeAmount;
    hide Liquidatable, Settles, DecimalsPow;
  }

  /** liquidation_call, end to end, on the debt reserve: the payment comes in, and only the borrower's debt goes. */
  lemma LiquidationDebtEffect(
      p: Pair, e: LiquidationEnv, liquidator: Address, user: Address, cover: nat, asShares: bool)
    returns (q: Pair, plan: Plan)
    requires Sound(p.debt) && LiquidationCall(p, e, liquidator, user, cover, asShares).Ok?
    ensures Follows(p, q, plan, e, user, cover)
    ensures var r' := LiquidationCall(p, e, liquidator, user, cover, asShares).value.debt;
            var (index, burned) := (q.debt.data.borrowIndex, p.debt.debt.Of(user) - r'.debt.Of(user));
            && r'.cash == p.debt.cash + plan.cover
            && r'.deficit == p.debt.deficit + (if WritesOff(plan) then plan.debtBalance - plan.cover else 0)
            && OneHolderChanged(p.debt.debt, r'.debt, user)
            && r'.supply == p.debt.supply && r'.collateralBits == p.debt.collateralBits
            && (!WritesOff(plan) ==>
                  burned * index <= plan.cover * RAY + index && plan.cover * RAY < burned * index + index)
            && r'.borrowBits == (if WritesOff(plan) || plan.cover == plan.debtBalance then p.debt.borrowBits - {user}
                                 else p.debt.borrowBits)
  {
    hide Accrue, MakePlan, SettleDebt, SettleCollateral, CheckLeftovers, RefreshRates, FeeInCollateral, SeizeAmount;
    hide Follows, OneHolderChanged, DecimalsPow, Sound;
    q, plan := LiquidationFollows(p, e, liquidator, user, cover, asShares);
    DebtMoves(p, q, plan, e, liquidator, user, cover, asShares);
    SoundIsBacked(p.debt);
    SettleDebtEffect(q.debt, user, plan);
    RefreshShape(SettleDebt(q.debt, user, plan).value, e.debtParams);
  }

  /** The displayed debt a plan leaves. */
  function OwedAfter(plan: Plan): nat {
    if plan.capped || plan.debtBalance <= plan.cover then 0 else plan.debtBalance - plan.cover
  }

  lemma CollateralMoves(p: Pair, q: Pair, plan: Plan, e: LiquidationEnv, liquidator: Address, user: Address,
                        cover: nat, asShares: bool) returns (fee: nat)
    requires LiquidationCall(p, e, liquidator, user, cover, asShares).Ok? && Follows(p, q, plan, e, user, cover)
    ensures DecimalsPow(q.debt.data).Ok? && DecimalsPow(q.collateral.data).Ok? && e.collateralPrice > 0
    ensures FeeInCollateral(plan, e, DecimalsPow(q.debt.data).value, DecimalsPow(q.collateral.data).value) == Ok(fee)
    ensures fee <= plan.seized && q.collateral == p.collateral.(data := q.collateral.data)
    ensures SettleCollateral(q.collateral, e, user, liquidator, plan, fee, asShares).Ok?
    ensures RefreshRates(SettleCollateral(q.collateral, e, user, liquidator, plan, fee, asShares).value.0,
                         e.collateralParams)
         == Ok(LiquidationCall(p, e, liquidator, user, cover, asShares).value.collateral)
    ensures CheckLeftovers(
              OwedAfter(plan), SettleCollateral(q.collateral, e, user, liquidator, plan, fee, asShares).value.1, e,
              DecimalsPow(q.debt.data).value, DecimalsPow(q.collateral.data).value).Ok?
  {
    hide Accrue, MakePlan, SettleDebt, SettleCollateral, CheckLeftovers, RefreshRates, FeeInCollateral, SeizeAmount;
    hide Liquidatable, Settles, DecimalsPow;
    fee := FeeInCollateral(plan, e, DecimalsPow(q.debt.data).value, DecimalsPow(q.collateral.data).value).value;
    FeeWithin(plan, e, DecimalsPow(q.debt.data).value, DecimalsPow(q.collateral.data).value);
  }

  /**
   liquidation_call, end to end, on the collateral reserve: in cash the seizure leaves it, less a fee nobody takes, and
   the borrower's shares fall by its ceiling; as shares only the borrower's and the takers' entries move.
   */
  lemma LiquidationCollateralEffect(
      p: Pair, e: LiquidationEnv, liquidator: Address, user: Address, cover: nat, asShares: bool)
    returns (q: Pair, plan: Plan, fee: nat)
    requires Sound(p.collateral) && LiquidationCall(p, e, liquidator, user, cover, asShares).Ok?
    ensures Follows(p, q, plan, e, user, cover) && q.collateral.data.liquidityIndex > 0
    ensures DecimalsPow(q.debt.data).Ok? && DecimalsPow(q.collateral.data).Ok? && e.collateralPrice > 0
    ensures FeeInCollateral(plan, e, DecimalsPow(q.debt.data).value, DecimalsPow(q.collateral.data).value) == Ok(fee)
    ensures fee <= plan.seized
    ensures var (r', index) := (LiquidationCall(p, e, liquidator, user, cover, asShares).value.collateral,
                                q.collateral.data.liquidityIndex);
            && DebtSideKept(p.collateral, r')
            && r'.cash + (if asShares then 0 else if e.treasury.Some? then plan.seized else plan.seized - fee)
               == p.collateral.cash
            && (!asShares ==>
                  var burned := p.collateral.supply.Of(user) - r'.supply.Of(user);
                  && (burned * index >= plan.seized * RAY || r'.supply.Of(user) == 0)
                  && burned * index < plan.seized * RAY + index)
            && (asShares && e.treasury != Some(user) ==>
                  r'.supply.Of(user) + DivDown(plan.seized - fee, index) + FeeShares(e, fee, index)
                  == p.collateral.supply.Of(user)
                     + (if user == liquidator then DivDown(plan.seized - fee, index) else 0))
  {
    hide Accrue, MakePlan, SettleCollateral, SeizeAsShares, RefreshRates, FeeInCollateral, LiquidationCall, DivDown;
    hide Liquidatable, Settles, SeizeAmount, OneHolderChanged, DecimalsPow, FeeShares, MulNear;
    q, plan := LiquidationFollows(p, e, liquidator, user, cover, asShares);
    fee := CollateralMoves(p, q, plan, e, liquidator, user, cover, asShares);
    AccrueKeepsSound(p.collateral, e.now);
    SettleCollateralEffect(q.collateral, e, user, liquidator, plan, fee, asShares);
    if asShares {
      SeizeAsSharesEffect(q.collateral, e, user, liquidator, plan.seized - fee, fee, user);
    }
    RefreshShape(SettleCollateral(q.collateral, e, user, liquidator, plan, fee, asShares).value.0, e.collateralParams);
  }

  /** A liquidation_call leaves nothing on one side, or on both sides enough for another one. */
  lemma LeavesEnough(p: Pair, e: LiquidationEnv, liquidator: Address, user: Address, cover: nat, asShares: bool)
    returns (q: Pair, plan: Plan, fee: nat)
    requires Sound(p.collateral) && LiquidationCall(p, e, liquidator, user, cover, asShares).Ok?
    ensures Follows(p, q, plan, e, user, cover) && fee <= plan.seized
    ensures Removed(e, plan, fee, asShares) <= plan.collateralBalance
    ensures var held := plan.collateralBalance - Removed(e, plan, fee, asShares);
            OwedAfter(plan) > 0 && held > 0 ==>
              && Value(OwedAfter(plan), e.debtPrice, e.oracleToWad, q.debt.data.config.decimals) >= MIN_LEFTOVER_BASE
              && Value(held, e.collateralPrice, e.oracleToWad, q.collateral.data.config.decimals) >= MIN_LEFTOVER_BASE
  {
    hide Accrue, MakePlan, SettleCollateral, SeizeAsShares, RefreshRates, FeeInCollateral, LiquidationCall, SeizeAmount;
    hide Liquidatable, Settles, OneHolderChanged, MulNear, Quotient, Times, Pow10;
    q, plan := LiquidationFollows(p, e, liquidator, user, cover, asShares);
    fee := CollateralMoves(p, q, plan, e, liquidator, user, cover, asShares);
    AccrueKeepsSound(p.collateral, e.now);
    SettleCollateralEffect(q.collateral, e, user, liquidator, plan, fee, asShares);
  }

  /** So an uncapped liquidation_call takes exactly what the repayment and the bonus are worth. */
  lemma UncappedTakesBonus(
      p: Pair, e: LiquidationEnv, liquidator: Address, user: Address, cover: nat, asShares: bool)
    returns (q: Pair, plan: Plan)
    requires LiquidationCall(p, e, liquidator, user, cover, asShares).Ok?
    ensures Follows(p, q, plan, e, user, cover)
    ensures !plan.capped ==>
              && plan.cover == plan.requested && DecimalsPow(q.debt.data).Ok? && DecimalsPow(q.collateral.data).Ok?
              && ValueInBase(plan.cover, e.debtPrice, e.oracleToWad, DecimalsPow(q.debt.data).value).Ok?
              && var base := ValueInBase(plan.cover, e.debtPrice, e.oracleToWad, DecimalsPow(q.debt.data).value).value;
                 var unit := e.collateralPrice * e.oracleToWad;
                 var limit := WithBonus(base, q.collateral.data.config.liquidationBonus)
                              * DecimalsPow(q.collateral.data).value;
                 plan.seized * unit <= limit < (plan.seized + 1) * unit
  {
    hide LiquidationCall, AccruePair, MakePlan, SeizeAmount, ValueInBase, DecimalsPow, Liquidatable;
    q, plan := LiquidationFollows(p, e, liquidator, user, cover, asShares);
    SeizureIsBonus(q.collateral.data, q.debt.data, plan.requested, e);
  }

  // ------------------------------------------------------------------ execute_liquidation

  /** The covered burn is the amount's worth within one share, and what it leaves displays within half a unit. */
  lemma FlashDebtEffect(r: Reserve, user: Address, cover: nat, capped: bool)
    requires Backed(r.debt) && r.data.borrowIndex >= RAY && FlashSettleDebt(r, user, cover, capped).Ok?
    ensures var (r', left) := FlashSettleDebt(r, user, cover, capped).value;
            var index := r.data.borrowIndex;
            && r' == r.(debt := r'.debt, deficit := r'.deficit, borrowBits := r'.borrowBits)
            && OneHolderChanged(r.debt, r'.debt, user)
            && left == MulNear(r'.debt.Of(user), index)
            && r'.borrowBits == (if left == 0 then r.borrowBits - {user} else r.borrowBits)
            && (!capped ==>
                  var burned := r.debt.Of(user) - r'.debt.Of(user);
                  && r'.deficit == r.deficit
                  && burned * index <= cover * RAY + index && cover * RAY < burned * index + index
                  && (left > 0 && r.data.config.minRemainingDebt > 0 ==>
                        left >= LimitInUnits(r.data.config.minRemainingDebt, r.data)))
            && (capped ==> r'.debt.Of(user) == 0)
  {
    hide DebtBurn, OneHolderChanged, Backed, Pow10, MulNear;
    var index := r.data.borrowIndex;
    var first := DebtBurn(r.debt, user, cover, index).value;
    BurnsKeepBacked(r.debt, user, cover, index);
    ChangedIsBacked(r.debt, first.state, user);
    DebtBurnWithinOneShare(r.debt, user, cover, index);
    DebtBurnTakesItsWorth(r.debt, user, cover, index);
    BurnSets(r.debt, user, cover, index);
    MulNearByRay(first.userScaled, index);
    ZeroShows(index);
    var left := MulNear(first.userScaled, index);
    if capped && left > 0 {
      BurnsKeepBacked(first.state, user, left, index);
      HoldersCompose(r.debt, first.state, FlashSettleDebt(r, user, cover, capped).value.0.debt, user);
      FullDebtExit(first.state, user, index, left);
      BurnSets(first.state, user, left, index);
    }
  }

  /** What a write-off records: the display of what the covered burn left. */
  lemma FlashDeficit(r: Reserve, user: Address, cover: nat)
    requires Backed(r.debt) && FlashSettleDebt(r, user, cover, true).Ok?
    ensures DebtBurn(r.debt, user, cover, r.data.borrowIndex).Ok?
    ensures FlashSettleDebt(r, user, cover, true).value.0.deficit
         == r.deficit + MulNear(DebtBurn(r.debt, user, cover, r.data.borrowIndex).value.userScaled, r.data.borrowIndex)
  {
    hide DebtBurn, MulNear;
  }

  /** The collateral side pays the floor of the burned shares' worth, at most the seizure. */
  lemma FlashCollateralEffect(r: Reserve, user: Address, seized: nat)
    requires Backed(r.supply) && FlashSettleCollateral(r, user, seized).Ok?
    ensures var (r', left) := FlashSettleCollateral(r, user, seized).value;
            var (index, burned, paid) := (r.data.liquidityIndex, r.supply.Of(user) - r'.supply.Of(user),
                                          r.cash - r'.cash);
            && r' == r.(supply := r'.supply, cash := r'.cash, collateralBits := r'.collateralBits)
            && OneHolderChanged(r.supply, r'.supply, user)
            && 0 <= paid <= seized && paid * RAY <= burned * index
            && (paid == seized || burned * index < paid * RAY + RAY)
            && (burned * index >= seized * RAY || r'.supply.Of(user) == 0) && burned * index < seized * RAY + index
            && left == MulNear(r'.supply.Of(user), index)
            && r'.collateralBits == (if left == 0 then r.collateralBits - {user} else r.collateralBits)
  {
    hide ATokenBurnAndTransfer, OneHolderChanged, Backed, MulNear;
    BurnsKeepBacked(r.supply, user, seized, r.data.liquidityIndex);
    PaidBurnNeverOverpays(r.supply, user, seized, r.data.liquidityIndex);
    PaidBurnSets(r.supply, user, seized, r.data.liquidityIndex);
  }

  lemma FlashLeftovers(p: Pair, e: LiquidationEnv, user: Address, auth: Authorization)
    requires FlashMoves(p, e, user, auth).Ok?
    ensures var plan := FlashMoves(p, e, user, auth).value.1;
            && FlashSettleDebt(p.debt, user, plan.cover, plan.capped).Ok?
            && FlashSettleCollateral(p.collateral, user, plan.seized).Ok?
            && DecimalsPow(p.debt.data).Ok? && DecimalsPow(p.collateral.data).Ok?
            && CheckLeftovers(
                 FlashSettleDebt(p.debt, user, plan.cover, plan.capped).value.1,
                 FlashSettleCollateral(p.collateral, user, plan.seized).value.1, e,
                 DecimalsPow(p.debt.data).value, DecimalsPow(p.collateral.data).value).Ok?
  {
    hide FlashPlan, FlashSettleDebt, FlashSettleCollateral, CheckLeftovers, DecimalsPow;
  }

  /**
   execute_liquidation, end to end: the plan stays within the authorization, the lending reserve's cash is as it was,
   the collateral paid out is at most the seizure, a capped plan leaves no debt at all, and what both sides display
   in the end is enough for another liquidation, or nothing on one of them.
   */
  lemma ExecutionEffect(p: Pair, e: LiquidationEnv, user: Address, auth: Authorization) returns (q: Pair, plan: Plan)
    requires Sound(p.debt) && Sound(p.collateral) && ExecuteLiquidation(p, e, user, auth).Ok?
    ensures AccruePair(p, e.now) == Ok(q) && FlashPlan(q, e, user, auth) == Ok(plan)
    ensures Settles(plan) && Liquidatable(q.debt, q.collateral, e, user, auth.debtToCover)
    ensures plan.cover <= p.debt.cash && plan.seized <= auth.collateralToSeize
    ensures var p' := ExecuteLiquidation(p, e, user, auth).value;
            && p'.debt.cash == p.debt.cash && p'.debt.supply == p.debt.supply
            && OneHolderChanged(p.debt.debt, p'.debt.debt, user)
            && (plan.capped ==> p'.debt.debt.Of(user) == 0 && user !in p'.debt.borrowBits)
            && (!plan.capped ==>
                  var (index, burned) := (q.debt.data.borrowIndex, p.debt.debt.Of(user) - p'.debt.debt.Of(user));
                  && p'.debt.deficit == p.debt.deficit
                  && burned * index <= plan.cover * RAY + index && plan.cover * RAY < burned * index + index)
            && DecimalsPow(q.debt.data).Ok? && DecimalsPow(q.collateral.data).Ok?
            && CheckLeftovers(
                 MulNear(p'.debt.debt.Of(user), q.debt.data.borrowIndex),
                 MulNear(p'.collateral.supply.Of(user), q.collateral.data.liquidityIndex), e,
                 DecimalsPow(q.debt.data).value, DecimalsPow(q.collateral.data).value).Ok?
            && DebtSideKept(p.collateral, p'.collateral)
            && OneHolderChanged(p.collateral.supply, p'.collateral.supply, user)
            && var (index, burned, paid) := (q.collateral.data.liquidityIndex,
                                             p.collateral.supply.Of(user) - p'.collateral.supply.Of(user),
                                             p.collateral.cash - p'.collateral.cash);
               && 0 <= paid <= plan.seized && paid * RAY <= burned * index
               && (paid == plan.seized || burned * index < paid * RAY + RAY)
               && (burned * index >= plan.seized * RAY || p'.collateral.supply.Of(user) == 0)
               && burned * index < plan.seized * RAY + index
  {
    hide Accrue, FlashPlan, FlashSettleDebt, FlashSettleCollateral, FlashMoves, RefreshRates, MulNear, OneHolderChanged;
    hide Liquidatable, Settles;
    q := AccruePair(p, e.now).value;
    var moved := FlashMoves(q, e, user, auth).value;
    plan := moved.1;
    FlashShape(q, e, user, auth);
    FlashLeftovers(q, e, user, auth);
    FlashPlanMeans(q, e, user, auth);
    AccrueKeepsSound(p.debt, e.now);
    FlashDebtEffect(q.debt, user, plan.cover, plan.capped);
    FlashCollateralEffect(q.collateral, user, plan.seized);
    ZeroShows(q.debt.data.borrowIndex);
    RefreshShape(moved.0.debt, e.debtParams);
    RefreshShape(moved.0.collateral, e.collateralParams);
  }

  // ------------------------------------------------------------------ nothing else stands in the way

  /** Numbers that fit: the displayed balances and the three values, with the close factor applied. */
  ghost predicate ValuesFit(debt: Reserve, collateral: Reserve, e: LiquidationEnv, user: Address, cover: nat) {
    && ShownDebt(debt, user) <= I128_MAX && ShownCollateral(collateral, user) <= I128_MAX
    && Pow10(debt.data.config.decimals) <= U128_MAX && Pow10(collateral.data.config.decimals) <= U128_MAX
    && Value(ShownDebt(debt, user), e.debtPrice, e.oracleToWad, debt.data.config.decimals) * MAX_CLOSE_FACTOR
       <= U128_MAX
    && Value(ShownCollateral(collateral, user), e.collateralPrice, e.oracleToWad, collateral.data.config.decimals)
       <= U128_MAX
    && Value(cover, e.debtPrice, e.oracleToWad, debt.data.config.decimals) <= U128_MAX
  }

  /** The checks are exact: among numbers that fit, both liquidations refuse exactly what is not liquidatable. */
  lemma CheckAccepted(debt: Reserve, collateral: Reserve, e: LiquidationEnv, user: Address, cover: nat)
    requires ValuesFit(debt, collateral, e, user, cover)
    ensures CheckLiquidation(debt, collateral, e, user, cover).Ok? <==> Liquidatable(debt, collateral, e, user, cover)
  {
    hide MulNear, Quotient, Times, Pow10, ValidateCloseFactor;
    var (owed, held) := (ShownDebt(debt, user), ShownCollateral(collateral, user));
    var (owedValue, heldValue, coverValue) := (
      Value(owed, e.debtPrice, e.oracleToWad, debt.data.config.decimals),
      Value(held, e.collateralPrice, e.oracleToWad, collateral.data.config.decimals),
      Value(cover, e.debtPrice, e.oracleToWad, debt.data.config.decimals));
    if CheckLiquidation(debt, collateral, e, user, cover).Ok? {
      CheckMeans(debt, collateral, e, user, cover);
    } else if Liquidatable(debt, collateral, e, user, cover) {
      CloseFactorSuffices(e, owedValue, heldValue, coverValue);
    }
  }

  /** What is planned for checked inputs, once the clamp, the seizure and the cap are computed. */
  lemma PlanAccepted(debt: Reserve, collateral: Reserve, e: LiquidationEnv, user: Address, cover: nat)
    requires CheckLiquidation(debt, collateral, e, user, cover).Ok?
    requires debt.data.config.active && collateral.data.config.active
    requires !debt.data.config.paused && !collateral.data.config.paused
    requires ClampDust(debt.data, ShownDebt(debt, user), cover).Ok?
    requires SeizeAmount(collateral.data, debt.data, ClampDust(debt.data, ShownDebt(debt, user), cover).value, e).Ok?
    requires var requested := ClampDust(debt.data, ShownDebt(debt, user), cover).value;
             var wanted := SeizeAmount(collateral.data, debt.data, requested, e).value;
             CapPlan(ShownDebt(debt, user), ShownCollateral(collateral, user), requested, wanted).Ok?
    ensures MakePlan(debt, collateral, e, user, cover).Ok?
  {
    hide CheckLiquidation, ClampDust, SeizeAmount, CapPlan;
    CheckMeans(debt, collateral, e, user, cover);
  }

  /** A prepared plan is accepted exactly when its cover is there to lend and it seizes something. */
  lemma FlashPlanAccepted(p: Pair, e: LiquidationEnv, user: Address, auth: Authorization)
    requires CheckLiquidation(p.debt, p.collateral, e, user, auth.debtToCover).Ok?
    requires ClampDust(p.debt.data, ShownDebt(p.debt, user), auth.debtToCover).Ok?
    requires var requested := ClampDust(p.debt.data, ShownDebt(p.debt, user), auth.debtToCover).value;
             && SeizeAmount(p.collateral.data, p.debt.data, requested, e).Ok?
             && CapPlan(
                  ShownDebt(p.debt, user), ShownCollateral(p.collateral, user), requested,
                  Min(SeizeAmount(p.collateral.data, p.debt.data, requested, e).value, auth.collateralToSeize)).Ok?
    ensures var requested := ClampDust(p.debt.data, ShownDebt(p.debt, user), auth.debtToCover).value;
            var wanted := Min(SeizeAmount(p.collateral.data, p.debt.data, requested, e).value, auth.collateralToSeize);
            var plan := CapPlan(ShownDebt(p.debt, user), ShownCollateral(p.collateral, user), requested, wanted).value;
            FlashPlan(p, e, user, auth).Ok? <==> 0 < plan.cover <= p.debt.cash && plan.seized > 0
  {
    hide CheckLiquidation, ClampDust, SeizeAmount, CapPlan;
    CheckMeans(p.debt, p.collateral, e, user, auth.debtToCover);
  }

  lemma FloorsAdd(a: nat, b: nat, index: nat)
    requires index > 0
    ensures DivDown(a, index) + DivDown(b, index) <= DivDown(a + b, index)
  {
    var (x, y, z) := (DivDown(a, index), DivDown(b, index), DivDown(a + b, index));
    assert (x + y) * index == x * index + y * index;
    CompareQuotients(x + y, z, index);
  }

  /** What a debt burn leaves: the difference, unless that is a single share. */
  lemma BurnLeaves(s: Scaled, user: Address, amount: nat, index: nat)
    requires DebtBurn(s, user, amount, index).Ok?
    ensures index > 0 && DivDown(amount, index) <= s.Of(user)
    ensures var (b, left) := (DebtBurn(s, user, amount, index).value, s.Of(user) - DivDown(amount, index));
            b.userScaled == b.state.Of(user) == (if left <= 1 then 0 else left)
  {
    hide DivDown;
  }

  /**
   The debt side is exact too. A payment within the display is refused only when it leaves less than the minimum, and
   a write-off only when the payment's floor leaves one share: the dust rule burns that share with the payment, and
   the burn of the rest then asks for a share that is gone.
   */
  lemma SettleDebtAccepted(r: Reserve, user: Address, plan: Plan)
    requires Backed(r.debt) && r.data.borrowIndex >= RAY && r.debt.Of(user) <= I128_MAX
    requires BalanceWithIndex(r.debt, user, r.data.borrowIndex) == Ok(plan.debtBalance)
    requires 0 < plan.cover <= plan.debtBalance && r.deficit + plan.debtBalance <= U128_MAX
    requires Pow10(r.data.config.decimals) <= U128_MAX
    requires LimitInUnits(r.data.config.minRemainingDebt, r.data) <= U128_MAX
    ensures var (index, rest) := (r.data.borrowIndex, plan.debtBalance - plan.cover);
            SettleDebt(r, user, plan).Ok? <==>
              && (rest > 0 && plan.capped ==>
                    !(r.debt.Of(user) == DivDown(plan.cover, index) + 1 && DivDown(rest, index) > 0))
              && (rest > 0 && !plan.capped && r.data.config.minRemainingDebt > 0 ==>
                    rest >= LimitInUnits(r.data.config.minRemainingDebt, r.data))
  {
    hide MulNear, DebtBurn, DivDown, Pow10, CheckMinDebt, LimitInUnits, Backed;
    var (index, rest, owed) := (r.data.borrowIndex, plan.debtBalance - plan.cover, r.debt.Of(user));
    ZeroShows(index);
    DisplayDividesBack(owed, index);
    FloorsAdd(plan.cover, rest, index);
    DebtBurnAccepted(r.debt, user, plan.cover, index);
    var first := DebtBurn(r.debt, user, plan.cover, index).value;
    BurnLeaves(r.debt, user, plan.cover, index);
    BurnsKeepBacked(r.debt, user, plan.cover, index);
    MinimumIsExact(r.data, rest);
    if rest > 0 && plan.capped {
      ChangedIsBacked(r.debt, first.state, user);
      MulNearMonotone(first.userScaled, owed, index, index);
      DebtBurnAccepted(first.state, user, rest, index);
    }
  }

  /** Two shares at index one, one paid and one to write off: such a liquidation is refused. */
  lemma LastShareIsRefused(r: Reserve, user: Address)
    requires r.data.borrowIndex == RAY && r.debt == Scaled(map[user := 2], 2)
    ensures BalanceWithIndex(r.debt, user, RAY) == Ok(2)
    ensures SettleDebt(r, user, Plan(2, 1, 2, 2, 1, 1, true)).Err?
  {
    assert MulNear(2, RAY) == 2 && DivDown(1, RAY) == 1;
  }

  /** What a seizure in cash needs: a displayed balance to burn, and the cash that leaves. */
  lemma SeizeAsCashGoesThrough(r: Reserve, e: LiquidationEnv, user: Address, net: nat, fee: nat, shown: nat)
    requires Backed(r.supply) && r.data.liquidityIndex >= RAY
    requires BalanceWithIndex(r.supply, user, r.data.liquidityIndex) == Ok(shown) && 0 < net + fee <= shown
    requires net + (if e.treasury.Some? then fee else 0) <= r.cash
    ensures SeizeAsCash(r, e, user, net, fee).Ok?
  {
    hide ATokenBurn, MulNear;
    BurnGoesThrough(r.supply, user, net + fee, r.data.liquidityIndex, shown);
  }

  lemma TransferAccepted(s: Scaled, from: Address, to: Address, amount: nat, index: nat)
    requires from != to && index > 0 && amount <= I128_MAX
    requires 0 < DivDown(amount, index) <= Min(s.Of(from), I128_MAX) && s.Of(to) + DivDown(amount, index) <= I128_MAX
    ensures TransferOnLiquidation(s, from, to, amount, index).Ok?
    ensures var s' := TransferOnLiquidation(s, from, to, amount, index).value.1;
            s'.Of(from) + DivDown(amount, index) == s.Of(from)
  {
    hide DivDown;
    assert DivDown(0, index) == 0 by {
      CompareQuotients(DivDown(0, index), 0, index);
    }
  }

  /** What a seizure as shares needs: whole shares on both ways, and room for a liquidator that held nothing. */
  lemma SeizeAsSharesGoesThrough(
      r: Reserve, e: LiquidationEnv, user: Address, liquidator: Address, net: nat, fee: nat)
    requires liquidator != user && e.treasury != Some(user) && e.treasury != Some(liquidator)
    requires r.data.liquidityIndex > 0 && net <= I128_MAX && fee <= I128_MAX
    requires var (index, feeShares) := (r.data.liquidityIndex, FeeShares(e, fee, r.data.liquidityIndex));
             && 0 < DivDown(net, index) && DivDown(net, index) + feeShares <= Min(r.supply.Of(user), I128_MAX)
             && r.supply.Of(liquidator) + DivDown(net, index) <= I128_MAX
             && (fee > 0 && e.treasury.Some? ==>
                   0 < feeShares && r.supply.Of(e.treasury.value) + feeShares <= I128_MAX)
    requires r.supply.Of(liquidator) == 0 && liquidator !in r.collateralBits ==> e.liquidatorRoom
    ensures SeizeAsShares(r, e, user, liquidator, net, fee).Ok?
  {
    hide DivDown, TransferOnLiquidation;
    var index := r.data.liquidityIndex;
    TransferAccepted(r.supply, user, liquidator, net, index);
    FirstShares(r.supply, user, liquidator, net, index);
    if fee > 0 && e.treasury.Some? {
      var first := TransferOnLiquidation(r.supply, user, liquidator, net, index).value.1;
      TransferAccepted(first, user, e.treasury.value, fee, index);
    }
  }

  /** And a liquidation_call whose sides go through needs nothing else. */
  lemma LiquidationGoesThrough(
      p: Pair, e: LiquidationEnv, liquidator: Address, user: Address, cover: nat, asShares: bool, q: Pair, plan: Plan,
      fee: nat)
    requires AccruePair(p, e.now) == Ok(q) && MakePlan(q.debt, q.collateral, e, user, cover) == Ok(plan)
    requires DecimalsPow(q.debt.data).Ok? && DecimalsPow(q.collateral.data).Ok? && e.collateralPrice > 0
    requires FeeInCollateral(plan, e, DecimalsPow(q.debt.data).value, DecimalsPow(q.collateral.data).value) == Ok(fee)
    requires SettleDebt(q.debt, user, plan).Ok? && RefreshRates(SettleDebt(q.debt, user, plan).value, e.debtParams).Ok?
    requires fee <= plan.seized
    requires var settled := SettleCollateral(q.collateral, e, user, liquidator, plan, fee, asShares);
             && settled.Ok? && RefreshRates(settled.value.0, e.collateralParams).Ok?
             && CheckLeftovers(OwedAfter(plan), settled.value.1, e, DecimalsPow(q.debt.data).value,
                               DecimalsPow(q.collateral.data).value).Ok?
    ensures LiquidationCall(p, e, liquidator, user, cover, asShares).Ok?
  {
    hide AccruePair, MakePlan, SettleDebt, SettleCollateral, CheckLeftovers, RefreshRates, FeeInCollateral, DecimalsPow;
  }
}
