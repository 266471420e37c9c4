/** Solvency of the operations that move two reserves at once: liquidations and collateral swaps. */
module CrossSolvency {
  import opened Common
  import opened RayMath
  import opened Tokens
  import opened Reserves
  import opened Solvency
  import opened Liquidations
  import opened Swaps

  // ------------------------------------------------------------------ the debt side of a liquidation

  /** A debt burn may cost one borrow index; writing off a remainder, which shows as new deficit, is a second one. */
  function BurnCharge(r: Reserve, r': Reserve): nat {
    if r'.deficit > r.deficit then 2 * r'.data.borrowIndex else r'.data.borrowIndex
  }

  /** A payment and its burn. */
  lemma PaymentLoss(r: Reserve, user: Address, cover: nat)
    requires Backed(r.debt) && DebtBurn(r.debt, user, cover, r.data.borrowIndex).Ok?
    ensures var paid :=
              r.(debt := DebtBurn(r.debt, user, cover, r.data.borrowIndex).value.state, cash := r.cash + cover);
            Backed(paid.debt) && Margin(r) - r.data.borrowIndex <= Margin(paid) <= Margin(r) + r.data.borrowIndex
  {
    var index := r.data.borrowIndex;
    var burned := DebtBurn(r.debt, user, cover, index).value;
    BurnsKeepBacked(r.debt, user, cover, index);
    DebtBurnWithinOneShare(r.debt, user, cover, index);
    var paid := r.(debt := burned.state, cash := r.cash + cover);
    DebtSideShift(r, paid, cover, 0, 0, burned.burned, index);
    DebtSideShift(paid, r, 0, cover, burned.burned, 0, index);
  }

  /** A remainder burned and recorded as deficit instead of being paid. */
  lemma WriteOffLoss(r: Reserve, user: Address, rest: nat)
    requires Backed(r.debt) && DebtBurn(r.debt, user, rest, r.data.borrowIndex).Ok?
    ensures var written :=
              r.(debt := DebtBurn(r.debt, user, rest, r.data.borrowIndex).value.state, deficit := r.deficit + rest);
            Backed(written.debt) && Margin(r) - r.data.borrowIndex <= Margin(written) <= Margin(r) + r.data.borrowIndex
  {
    var index := r.data.borrowIndex;
    var burned := DebtBurn(r.debt, user, rest, index).value;
    BurnsKeepBacked(r.debt, user, rest, index);
    DebtBurnWithinOneShare(r.debt, user, rest, index);
    var written := r.(debt := burned.state, deficit := r.deficit + rest);
    DebtSideShift(r, written, rest, 0, 0, burned.burned, index);
    DebtSideShift(written, r, 0, rest, burned.burned, 0, index);
  }

  /** Payment, burn, write-off: at most one debt index unit per burn. */
  lemma SettleDebtLoss(r: Reserve, user: Address, plan: Plan)
    requires Backed(r.debt) && SettleDebt(r, user, plan).Ok?
    ensures var r' := SettleDebt(r, user, plan).value;
            && r'.data == r.data && r'.supply == r.supply && Backed(r'.debt)
            && Margin(r') + BurnCharge(r, r') >= Margin(r)
  {
    hide DebtBurn, Backed;
    var index := r.data.borrowIndex;
    PaymentLoss(r, user, plan.cover);
    if plan.debtBalance > plan.cover && plan.capped {
      var paid := r.(debt := DebtBurn(r.debt, user, plan.cover, index).value.state, cash := r.cash + plan.cover);
      WriteOffLoss(paid, user, plan.debtBalance - plan.cover);
    }
  }

  // ------------------------------------------------------------------ the collateral side

  lemma SeizeAsSharesLoss(r: Reserve, e: LiquidationEnv, user: Address, liquidator: Address, net: nat, fee: nat)
    requires Backed(r.supply) && SeizeAsShares(r, e, user, liquidator, net, fee).Ok?
    ensures var r' := SeizeAsShares(r, e, user, liquidator, net, fee).value.0;
            && r'.data == r.data && r'.debt == r.debt && r'.cash == r.cash && r'.deficit == r.deficit
            && Backed(r'.supply) && r'.supply.total == r.supply.total
  {
    var index := r.data.liquidityIndex;
    TransfersKeepBacked(r.supply, user, liquidator, net, index);
    if fee > 0 && e.treasury.Some? {
      var first := TransferOnLiquidation(r.supply, user, liquidator, net, index).value.1;
      TransfersKeepBacked(first, user, e.treasury.value, fee, index);
    }
  }

  lemma SeizeAsCashLoss(r: Reserve, e: LiquidationEnv, user: Address, net: nat, fee: nat)
    requires Backed(r.supply) && SeizeAsCash(r, e, user, net, fee).Ok?
    requires net + fee <= MulNear(r.supply.Of(user), r.data.liquidityIndex)
    ensures var r' := SeizeAsCash(r, e, user, net, fee).value.0;
            && r'.data == r.data && r'.debt == r.debt && Backed(r'.supply)
            && Margin(r') + HALF_RAY >= Margin(r)
  {
    var r' := SeizeAsCash(r, e, user, net, fee).value.0;
    var index := r.data.liquidityIndex;
    BurnsKeepBacked(r.supply, user, net + fee, index);
    SupplyBurnLosesHalf(r.supply, user, net + fee, index);
    SupplySideShift(r, r', 0, r.cash - r'.cash, 0, ATokenBurn(r.supply, user, net + fee, index).value.burned, HALF_RAY);
  }

  /** Paying out the displayed worth of burned shares may cost half a ray; moving shares costs nothing. */
  function SeizureCharge(asShares: bool): nat {
    if asShares then 0 else HALF_RAY
  }

  lemma SettleCollateralLoss(
      r: Reserve, e: LiquidationEnv, user: Address, liquidator: Address, plan: Plan, fee: nat, asShares: bool)
    requires Backed(r.supply) && fee <= plan.seized <= plan.collateralBalance
    requires CachedCollateral(r, user) == Ok(plan.collateralBalance)
    requires SettleCollateral(r, e, user, liquidator, plan, fee, asShares).Ok?
    ensures var r' := SettleCollateral(r, e, user, liquidator, plan, fee, asShares).value.0;
            && r'.data == r.data && r'.debt == r.debt && Backed(r'.supply)
            && Margin(r') + SeizureCharge(asShares) >= Margin(r)
  {
    hide SeizeAsShares, SeizeAsCash;
    assert plan.collateralBalance <= MulNear(r.supply.Of(user), r.data.liquidityIndex);
    if asShares {
      SeizeAsSharesLoss(r, e, user, liquidator, plan.seized - fee, fee);
      SupplySideShift(r, SettleCollateral(r, e, user, liquidator, plan, fee, asShares).value.0, 0, 0, 0, 0, 0);
    } else {
      SeizeAsCashLoss(r, e, user, plan.seized - fee, fee);
      var taken := SeizeAsCash(r, e, user, plan.seized - fee, fee).value.0;
      SupplySideShift(taken, SettleCollateral(r, e, user, liquidator, plan, fee, asShares).value.0, 0, 0, 0, 0, 0);
    }
  }

  /** The plan a liquidation follows quotes the cached balances, and seizes no more than is held. */
  lemma PlanQuotesBalances(debt: Reserve, collateral: Reserve, e: LiquidationEnv, user: Address, cover: nat)
    requires MakePlan(debt, collateral, e, user, cover).Ok?
    ensures var plan := MakePlan(debt, collateral, e, user, cover).value;
            && CachedDebt(debt, user) == Ok(plan.debtBalance)
            && CachedCollateral(collateral, user) == Ok(plan.collateralBalance)
            && plan.seized <= plan.collateralBalance
            && plan.cover <= plan.requested
            && (cover <= plan.debtBalance ==> cover <= plan.requested <= plan.debtBalance)
  {
    var plan := MakePlan(debt, collateral, e, user, cover).value;
    CapIsProRata(plan.debtBalance, plan.collateralBalance, plan.requested, plan.wanted);
  }

  /** The shape of a successful liquidation: both sides settled by one plan. */
  lemma LiquidationShape(
      p: Pair, e: LiquidationEnv, liquidator: Address, user: Address, cover: nat, asShares: bool) returns (fee: nat)
    requires LiquidationMoves(p, e, liquidator, user, cover, asShares).Ok?
    ensures var (p', plan) := LiquidationMoves(p, e, liquidator, user, cover, asShares).value;
            && MakePlan(p.debt, p.collateral, e, user, cover) == Ok(plan)
            && SettleDebt(p.debt, user, plan) == Ok(p'.debt)
            && fee <= plan.seized
            && SettleCollateral(p.collateral, e, user, liquidator, plan, fee, asShares).Ok?
            && SettleCollateral(p.collateral, e, user, liquidator, plan, fee, asShares).value.0 == p'.collateral
  {
    var plan := MakePlan(p.debt, p.collateral, e, user, cover).value;
    fee := FeeInCollateral(plan, e, DecimalsPow(p.debt.data).value, DecimalsPow(p.collateral.data).value).value;
  }

  lemma SameDeficitSameCharge(r: Reserve, accrued: Reserve, moved: Reserve)
    requires accrued.deficit == r.deficit
    ensures BurnCharge(r, moved) == BurnCharge(accrued, moved)
  {
  }

  /** A refresh keeps what the charge is read from. */
  lemma RefreshKeepsCharge(r: Reserve, moved: Reserve, params: ValidParams)
    requires RefreshRates(moved, params).Ok?
    ensures BurnCharge(r, RefreshRates(moved, params).value) == BurnCharge(r, moved)
  {
    RefreshShape(moved, params);
  }

  lemma LiquidationDebtCovered(
      p: Pair, a: Audit, e: LiquidationEnv, liquidator: Address, user: Address, cover: nat, asShares: bool)
    requires Covered(p.debt, a)
    requires LiquidationCall(p, e, liquidator, user, cover, asShares).Ok?
    ensures var r' := LiquidationCall(p, e, liquidator, user, cover, asShares).value.debt;
            Covered(r', AfterOperation(p.debt, r', a, e.now, BurnCharge(p.debt, r')))
  {
    hide LiquidationMoves, SettleDebt, SettleCollateral, MakePlan, RefreshRates;
    hide Margin, FreshSlack, AfterAccrual, BurnCharge;
    var q := AccruePair(p, e.now).value;
    AccrualCovered(p.debt, a, e.now);
    var (moved, plan) := LiquidationMoves(q, e, liquidator, user, cover, asShares).value;
    var fee := LiquidationShape(q, e, liquidator, user, cover, asShares);
    RefreshKeepsCharge(p.debt, moved.debt, e.debtParams);
    SameDeficitSameCharge(p.debt, q.debt, moved.debt);
    SettleDebtLoss(q.debt, user, plan);
    OperationCovered(p.debt, a, e.now, moved.debt, e.debtParams, BurnCharge(q.debt, moved.debt));
  }

  lemma LiquidationCollateralCovered(
      p: Pair, a: Audit, e: LiquidationEnv, liquidator: Address, user: Address, cover: nat, asShares: bool)
    requires Covered(p.collateral, a)
    requires LiquidationCall(p, e, liquidator, user, cover, asShares).Ok?
    ensures var r' := LiquidationCall(p, e, liquidator, user, cover, asShares).value.collateral;
            Covered(r', AfterOperation(p.collateral, r', a, e.now, SeizureCharge(asShares)))
  {
    var q := AccruePair(p, e.now).value;
    AccrualCovered(p.collateral, a, e.now);
    var (moved, plan) := LiquidationMoves(q, e, liquidator, user, cover, asShares).value;
    var fee := LiquidationShape(q, e, liquidator, user, cover, asShares);
    PlanQuotesBalances(q.debt, q.collateral, e, user, cover);
    SettleCollateralLoss(q.collateral, e, user, liquidator, plan, fee, asShares);
    OperationCovered(p.collateral, a, e.now, moved.collateral, e.collateralParams, SeizureCharge(asShares));
  }

  /** The flash variant pays out no more cash than the burned shares are worth. */
  lemma FlashCollateralLoss(r: Reserve, user: Address, seized: nat)
    requires Backed(r.supply) && FlashSettleCollateral(r, user, seized).Ok?
    ensures var r' := FlashSettleCollateral(r, user, seized).value.0;
            r'.data == r.data && r'.debt == r.debt && Backed(r'.supply) && Margin(r') >= Margin(r)
  {
    var r' := FlashSettleCollateral(r, user, seized).value.0;
    BurnsKeepBacked(r.supply, user, seized, r.data.liquidityIndex);
    PaidBurnNeverOverpays(r.supply, user, seized, r.data.liquidityIndex);
    var paid := ATokenBurnAndTransfer(r.supply, user, seized, r.data.liquidityIndex).value;
    SupplySideShift(r, r', 0, paid.actual, 0, paid.burned, 0);
  }

  /** The prepared burn finds no cash coming in: to within the burn charges it costs the cover itself. */
  lemma FlashDebtLoss(r: Reserve, user: Address, cover: nat, capped: bool)
    requires Backed(r.debt) && FlashSettleDebt(r, user, cover, capped).Ok?
    ensures var r' := FlashSettleDebt(r, user, cover, capped).value.0;
            && r'.data == r.data && r'.supply == r.supply && r'.cash == r.cash && Backed(r'.debt)
            && Margin(r) - BurnCharge(r, r') <= Margin(r') + RAY * cover <= Margin(r) + BurnCharge(r, r')
  {
    hide DebtBurn, Backed;
    var index := r.data.borrowIndex;
    PaymentLoss(r, user, cover);
    var burned := DebtBurn(r.debt, user, cover, index).value;
    var left := MulNear(burned.userScaled, index);
    if capped && left > 0 {
      WriteOffLoss(r.(debt := burned.state), user, left);
    }
  }

  /** The shape of a successful prepared liquidation. */
  lemma FlashShape(q: Pair, e: LiquidationEnv, user: Address, auth: Authorization)
    requires FlashMoves(q, e, user, auth).Ok?
    ensures var (moved, plan) := FlashMoves(q, e, user, auth).value;
            && FlashPlan(q, e, user, auth) == Ok(plan)
            && FlashSettleDebt(q.debt, user, plan.cover, plan.capped).Ok?
            && moved.debt == FlashSettleDebt(q.debt, user, plan.cover, plan.capped).value.0
            && FlashSettleCollateral(q.collateral, user, plan.seized).Ok?
            && moved.collateral == FlashSettleCollateral(q.collateral, user, plan.seized).value.0
  {
    hide FlashSettleDebt, FlashSettleCollateral, FlashPlan, CheckLeftovers, DecimalsPow;
  }

  /** The debt that a prepared liquidation covers out of the lending reserve's own cash. */
  function LentCover(p: Pair, e: LiquidationEnv, user: Address, auth: Authorization): nat {
    var q := AccruePair(p, e.now);
    var plan := if q.Ok? then FlashPlan(q.value, e, user, auth) else Err(q.error);
    if plan.Ok? then plan.value.cover else 0
  }

  /**
   The lending reserve of a prepared liquidation. What its aToken lent stays in the router, and the transfer
   back is the swap's proceeds: the burned debt is not paid to the reserve a second time.
   */
  lemma ExecuteDebtCovered(p: Pair, a: Audit, e: LiquidationEnv, user: Address, auth: Authorization)
    requires Covered(p.debt, a) && ExecuteLiquidation(p, e, user, auth).Ok?
    ensures var r' := ExecuteLiquidation(p, e, user, auth).value.debt;
            var loss := RAY * LentCover(p, e, user, auth) + BurnCharge(p.debt, r');
            Covered(r', AfterOperation(p.debt, r', a, e.now, loss))
  {
    hide FlashMoves, FlashPlan, FlashSettleDebt, RefreshRates, Margin, FreshSlack, AfterAccrual, BurnCharge;
    var q := AccruePair(p, e.now).value;
    AccrualCovered(p.debt, a, e.now);
    var (moved, plan) := FlashMoves(q, e, user, auth).value;
    FlashShape(q, e, user, auth);
    RefreshKeepsCharge(p.debt, moved.debt, e.debtParams);
    SameDeficitSameCharge(p.debt, q.debt, moved.debt);
    FlashDebtLoss(q.debt, user, plan.cover, plan.capped);
    OperationCovered(p.debt, a, e.now, moved.debt, e.debtParams, RAY * plan.cover + BurnCharge(q.debt, moved.debt));
  }

  lemma ExecuteCollateralCovered(p: Pair, a: Audit, e: LiquidationEnv, user: Address, auth: Authorization)
    requires Covered(p.collateral, a) && ExecuteLiquidation(p, e, user, auth).Ok?
    ensures var r' := ExecuteLiquidation(p, e, user, auth).value.collateral;
            Covered(r', AfterOperation(p.collateral, r', a, e.now, 0))
  {
    hide FlashMoves, FlashPlan, FlashSettleCollateral;
    var q := AccruePair(p, e.now).value;
    AccrualCovered(p.collateral, a, e.now);
    var (moved, plan) := FlashMoves(q, e, user, auth).value;
    FlashShape(q, e, user, auth);
    FlashCollateralLoss(q.collateral, user, plan.seized);
    OperationCovered(p.collateral, a, e.now, moved.collateral, e.collateralParams, 0);
  }

  lemma FlashDebtKeepsRest(r: Reserve, user: Address, cover: nat, capped: bool)
    requires FlashSettleDebt(r, user, cover, capped).Ok?
    ensures var r' := FlashSettleDebt(r, user, cover, capped).value.0;
            r'.data == r.data && r'.supply == r.supply && r'.cash == r.cash
  {
    hide DebtBurn;
  }

  /** With one asset on both sides the loan is never found repaid: the seizure has left the same aToken. */
  lemma OneAssetNeverExecutes(r: Reserve, e: LiquidationEnv, user: Address, auth: Authorization)
    requires Sound(r)
    ensures ExecuteOnOne(r, e, user, auth).Err?
  {
    hide FlashPlan, FlashSettleDebt, FlashSettleCollateral, RefreshRates, Accrue;
    var data := Accrue(r.data, e.now);
    if data.Ok? {
      AccrualKeepsOrder(r.data, e.now);
      var start := r.(data := data.value);
      var plan := FlashPlan(Pair(start, start), e, user, auth);
      if plan.Ok? {
        var debt := FlashSettleDebt(start, user, plan.value.cover, plan.value.capped);
        if debt.Ok? && FlashSettleCollateral(debt.value.0, user, plan.value.seized).Ok? {
          FlashDebtKeepsRest(start, user, plan.value.cover, plan.value.capped);
          FlashSeizureLowersCash(debt.value.0, user, plan.value.seized);
        }
      }
    }
  }

  // ------------------------------------------------------------------ swaps

  /** Selling pays out no more than the burned shares are worth, whatever was asked for. */
  lemma SellLoss(r: Reserve, user: Address, amount: nat)
    requires Backed(r.supply) && SellMove(r, user, amount).Ok?
    ensures var r' := SellMove(r, user, amount).value.0;
            r'.data == r.data && r'.debt == r.debt && Backed(r'.supply) && Margin(r') >= Margin(r)
  {
    var r' := SellMove(r, user, amount).value.0;
    var want := SwapAmount(r, user, amount).value;
    BurnsKeepBacked(r.supply, user, want, r.data.liquidityIndex);
    PaidBurnNeverOverpays(r.supply, user, want, r.data.liquidityIndex);
    var paid := ATokenBurnAndTransfer(r.supply, user, want, r.data.liquidityIndex).value;
    SupplySideShift(r, r', 0, paid.actual, 0, paid.burned, 0);
  }

  lemma BuyLoss(r: Reserve, e: SwapEnv, user: Address, minOut: nat)
    requires Backed(r.supply) && BuyMove(r, e, user, minOut).Ok?
    ensures var r' := BuyMove(r, e, user, minOut).value;
            r'.data == r.data && r'.debt == r.debt && Backed(r'.supply) && Margin(r') >= Margin(r)
  {
    var r' := BuyMove(r, e, user, minOut).value;
    var deposit := r'.cash - r.cash;
    MintsKeepBacked(r.supply, user, deposit, r.data.liquidityIndex);
    MintsFavourPool(r.supply, user, deposit, r.data.liquidityIndex);
    SupplySideShift(r, r', deposit, 0, ATokenMint(r.supply, user, deposit, r.data.liquidityIndex).value.minted, 0, 0);
  }

  lemma QuietAccrualCovered(r: Reserve, a: Audit, now: nat)
    requires Covered(r, a) && AccrueQuietly(r.data, now).Ok?
    ensures Covered(r.(data := AccrueQuietly(r.data, now).value), AfterAccrual(r, a, now))
  {
    if now > r.data.lastUpdate {
      AccrualCovered(r, a, now);
    }
  }

  lemma SwapFromCovered(
      from: Reserve, to: Reserve, a: Audit, e: SwapEnv, user: Address, amount: nat, minOut: nat)
    requires Covered(from, a) && SwapCollateral(from, to, e, user, amount, minOut).Ok?
    ensures var from' := SwapCollateral(from, to, e, user, amount, minOut).value.0;
            Covered(from', AfterOperation(from, from', a, e.now, 0))
  {
    QuietAccrualCovered(from, a, e.now);
    var from1 := from.(data := AccrueQuietly(from.data, e.now).value);
    SellLoss(from1, user, amount);
    MoveCovered(from1, AfterAccrual(from, a, e.now), SellMove(from1, user, amount).value.0, e.fromParams, 0);
  }

  lemma SwapToCovered(
      from: Reserve, to: Reserve, a: Audit, e: SwapEnv, user: Address, amount: nat, minOut: nat)
    requires Covered(to, a) && SwapCollateral(from, to, e, user, amount, minOut).Ok?
    ensures var to' := SwapCollateral(from, to, e, user, amount, minOut).value.1;
            Covered(to', AfterOperation(to, to', a, e.now, 0))
  {
    QuietAccrualCovered(to, a, e.now);
    var to1 := to.(data := AccrueQuietly(to.data, e.now).value);
    BuyLoss(to1, e, user, minOut);
    MoveCovered(to1, AfterAccrual(to, a, e.now), BuyMove(to1, e, user, minOut).value, e.toParams, 0);
  }
}
