/**
 Two runs from the empty pool that show what the theorems about runs must allow. Twelve units are borrowed at
 index one against collateral the borrow check accepts; a year later they display 14 at an index between 1.17 and
 1.2, the collateral's price has fallen, and it pays for half of that. Repaying 7 and writing off 7 each burn five
 of the twelve shares, so a liquidation_call leaves two behind a cleared flag. A prepared liquidation of the same
 account leaves none, but burns a debt of 7 that its reserve is never paid for.
 */
module Remnants {
  import opened Common
  import opened RayMath
  import opened Interest
  import opened RateStrategy
  import opened Totals
  import opened Tokens
  import opened Reserves
  import opened Solvency
  import opened Liquidations
  import opened CrossSolvency
  import opened Accounts
  import opened AccountCaches
  import opened Health
  import opened Pools
  import opened Lending

  const BASE_RATE: nat := 170_000_000_000_000_000_000_000_000
  const CURVE: ValidParams := RateStrategy.Params(BASE_RATE, 1, 1, HALF_RAY)

  const LENDER: Address := 3
  const BORROWER: Address := 1
  const LIQUIDATOR: Address := 4

  /** A year later, at a debt price of 1000 and a collateral price of 7: 7000 of collateral for 14000 of debt. */
  function LaterEnv(): LiquidationEnv {
    LiquidationEnv(
      SECONDS_PER_YEAR, CURVE, CURVE, false, true, true, None, true, 1_000, 7, 1, WAD * 2 / 5, WAD / 2, 0)
  }

  function RemnantDeposits(): seq<Action> {
    DepositRun(CURVE, 0, LENDER, 1_000, BORROWER, 1_000)
  }

  function RemnantLoan(): seq<Action> {
    RemnantDeposits() + [Loan(CURVE, BORROWER, 12)]
  }

  function RemnantLiquidation(): Action {
    Liquidate(0, 1, LaterEnv(), LIQUIDATOR, BORROWER, 14, false)
  }

  /** What prepare_liquidation authorizes for the whole debt: 14 units and the collateral they are worth. */
  function RemnantExecution(): Action {
    Execute(0, 1, LaterEnv(), BORROWER, Authorization(14, 2_000))
  }

  // ------------------------------------------------------------------ a year of interest

  lemma BorrowRateIsBase(u: nat)
    requires u <= 12 * RAY / 1_000
    ensures BorrowRate(CURVE, u) == Ok(BASE_RATE)
  {
    var ratio := DivNear(u, HALF_RAY);
    assert 2 * (ratio * HALF_RAY) <= 2 * (u * RAY) + HALF_RAY;
    assert ratio < HALF_RAY;
  }

  /** The rates of the lending reserve and of the idle collateral reserve. */
  lemma StoredRates()
    ensures CalculateRates(CURVE, 988, 12, 1_000).Ok? && CalculateRates(CURVE, 1_000, 0, 1_000).Ok?
    ensures CalculateRates(CURVE, 988, 12, 1_000).value.borrow == BASE_RATE
    ensures CalculateRates(CURVE, 988, 12, 1_000).value.liquidity == 1_836 * RAY / 1_000_000
    ensures CalculateRates(CURVE, 1_000, 0, 1_000) == Ok(Rates(0, BASE_RATE))
  {
    RatesDefined(CURVE, 988, 12, 1_000);
    RatesDefined(CURVE, 1_000, 0, 1_000);
    assert DivNear(12, 1_000) == 12 * RAY / 1_000;
    assert DivNear(0, 1_000) == 0;
    BorrowRateIsBase(12 * RAY / 1_000);
    BorrowRateIsBase(0);
    assert MulNear(BASE_RATE, 0) == 0;
    assert MulNear(BASE_RATE, 12 * RAY / 1_000) == 204 * RAY / 100_000;
    assert MulNear(204 * RAY / 100_000, RAY - RAY / 10) == 1_836 * RAY / 1_000_000;
  }

  /** A year of the base rate. */
  lemma YearOfInterest()
    ensures CompoundFactor(BASE_RATE, 0, SECONDS_PER_YEAR).Ok?
    ensures 117 * RAY / 100 <= CompoundFactor(BASE_RATE, 0, SECONDS_PER_YEAR).value <= 120 * RAY / 100
  {
  }

  /** The lending reserve just before the liquidation, as far as the liquidation reads it. */
  ghost predicate HasLent(r: Reserve) {
    && r.data.config == OpenConfig(0) && r.data.lastUpdate == 0
    && r.data.liquidityIndex == RAY && r.data.borrowIndex == RAY
    && r.data.liquidityRate == 1_836 * RAY / 1_000_000 && r.data.borrowRate == BASE_RATE
    && r.supply == Scaled(map[LENDER := 1_000], 1_000) && r.debt == Scaled(map[BORROWER := 12], 12)
    && r.cash == 988 && r.deficit == 0 && r.collateralBits == {LENDER} && r.borrowBits == {BORROWER}
  }

  /** The collateral reserve: nothing lent, so its suppliers earn nothing. */
  ghost predicate Idle(r: Reserve) {
    && r.data.config == OpenConfig(0) && r.data.lastUpdate == 0
    && r.data.liquidityIndex == RAY && r.data.borrowIndex == RAY
    && r.data.liquidityRate == 0 && r.data.borrowRate == BASE_RATE
    && r.supply == Scaled(map[BORROWER := 1_000], 1_000) && r.debt == Scaled(map[], 0)
    && r.cash == 1_000 && r.deficit == 0 && r.collateralBits == {BORROWER} && r.borrowBits == {}
  }

  lemma YearOfSuppliers(rate: nat)
    requires rate <= BASE_RATE
    ensures LinearFactor(rate, 0, SECONDS_PER_YEAR) == Ok(RAY + rate)
  {
  }

  lemma MulRay(n: nat)
    ensures MulNear(RAY, n) == n && MulNear(n, RAY) == n
  {
  }

  /** The two reserves' data a year later. */
  ghost predicate YearLater(q: Pair) {
    && q.debt.data.config == q.collateral.data.config == OpenConfig(0)
    && q.debt.data.lastUpdate == q.collateral.data.lastUpdate == SECONDS_PER_YEAR
    && 117 * RAY / 100 <= q.debt.data.borrowIndex <= 120 * RAY / 100
    && q.debt.data.liquidityIndex == RAY + 1_836 * RAY / 1_000_000
    && q.collateral.data.liquidityIndex == RAY && q.collateral.data.borrowIndex <= 2 * RAY
  }

  /** Both reserves a year later. */
  lemma YearPasses(p: Pair)
    requires HasLent(p.debt) && Idle(p.collateral)
    ensures var q := AccruePair(p, SECONDS_PER_YEAR);
            && q.Ok?
            && q.value == Pair(p.debt.(data := q.value.debt.data), p.collateral.(data := q.value.collateral.data))
            && YearLater(q.value)
  {
    hide LinearFactor, CompoundFactor, MulNear;
    YearOfInterest();
    YearOfSuppliers(p.debt.data.liquidityRate);
    YearOfSuppliers(0);
    MulRay(RAY + p.debt.data.liquidityRate);
    MulRay(RAY);
    MulRay(CompoundFactor(BASE_RATE, 0, SECONDS_PER_YEAR).value);
  }

  /** What the index makes of the three amounts involved. */
  lemma IndexArithmetic(index: nat)
    requires 117 * RAY / 100 <= index <= 120 * RAY / 100
    ensures MulNear(12, index) == 14 && DivDown(7, index) == 5 && MulNear(5, index) == 6 && MulNear(2, index) == 2
    ensures MulNear(7, index) == 8 && DivDown(8, index) == 6
  {
    CompareQuotients(DivDown(7, index), 5, index);
    CompareQuotients(5, DivDown(7, index), index);
    CompareQuotients(DivDown(8, index), 6, index);
    CompareQuotients(6, DivDown(8, index), index);
  }

  const REMNANT_PLAN: Plan := Plan(14, 1_000, 14, 2_000, 7, 1_000, true)

  lemma PlanIsCapped(q: Pair)
    requires YearLater(q)
    requires q.debt.debt.Of(BORROWER) == 12 && BORROWER in q.debt.borrowBits
    requires q.collateral.supply.Of(BORROWER) == 1_000 && BORROWER in q.collateral.collateralBits
    ensures MakePlan(q.debt, q.collateral, LaterEnv(), BORROWER, 14) == Ok(REMNANT_PLAN)
    ensures LeavesTwo(REMNANT_PLAN, q.debt.data.borrowIndex, 12)
  {
    hide MulNear, DivDown;
    IndexArithmetic(q.debt.data.borrowIndex);
    MulRay(1_000);
    assert Pow10(0) == 1;
  }

  lemma BothSettle(q: Pair)
    requires YearLater(q)
    requires q.debt.debt == Scaled(map[BORROWER := 12], 12) && q.debt.deficit == 0
    requires q.collateral.supply == Scaled(map[BORROWER := 1_000], 1_000) && q.collateral.cash == 1_000
    ensures var done := SettleBoth(q, LaterEnv(), LIQUIDATOR, BORROWER, REMNANT_PLAN, false);
            && done.Ok?
            && done.value.debt == q.debt.(debt := Scaled(map[BORROWER := 2], 2), cash := q.debt.cash + 7, deficit := 7,
                                          borrowBits := q.debt.borrowBits - {BORROWER})
            && done.value.collateral == q.collateral.(supply := Scaled(map[BORROWER := 0], 0), cash := 0,
                                          collateralBits := q.collateral.collateralBits - {BORROWER})
  {
    hide MulNear, DivDown, DivUp;
    IndexArithmetic(q.debt.data.borrowIndex);
    MulRay(1_000);
    WholeShares(1_000);
    assert Pow10(0) == 1;
  }

  lemma SmallProducts(n: nat, index: nat)
    requires n <= 1_000 && index <= 2 * RAY
    ensures MulNear(n, index) <= 2_000
  {
    MulMonotone(n, 1_000, index, 2 * RAY);
  }

  // ------------------------------------------------------------------ liquidation_call

  /** The liquidation itself: it succeeds, and takes the flag while two of the twelve shares stay. */
  lemma LiquidationLeavesRemnant(p: Pair)
    requires HasLent(p.debt) && Idle(p.collateral)
    ensures var done := LiquidationCall(p, LaterEnv(), LIQUIDATOR, BORROWER, 14, false);
            && done.Ok?
            && done.value.debt.debt == Scaled(map[BORROWER := 2], 2) && done.value.debt.borrowBits == {}
            && done.value.debt.cash == 995 && done.value.debt.deficit == 7 && done.value.collateral.cash == 0
  {
    hide Accrue, MakePlan, SettleBoth, RefreshRates, MulNear;
    YearPasses(p);
    var q := AccruePair(p, SECONDS_PER_YEAR).value;
    PlanIsCapped(q);
    BothSettle(q);
    var moved := SettleBoth(q, LaterEnv(), LIQUIDATOR, BORROWER, REMNANT_PLAN, false).value;
    SmallProducts(1_000, moved.debt.data.liquidityIndex);
    SmallProducts(2, moved.debt.data.borrowIndex);
    SmallProducts(0, moved.collateral.data.liquidityIndex);
    SmallProducts(0, moved.collateral.data.borrowIndex);
    RatesExist(moved.debt, CURVE);
    RatesExist(moved.collateral, CURVE);
  }

  // ------------------------------------------------------------------ execute_liquidation

  lemma FlashPlanIsCapped(q: Pair)
    requires YearLater(q) && q.debt.cash == 988
    requires q.debt.debt.Of(BORROWER) == 12 && BORROWER in q.debt.borrowBits
    requires q.collateral.supply.Of(BORROWER) == 1_000 && BORROWER in q.collateral.collateralBits
    ensures FlashPlan(q, LaterEnv(), BORROWER, Authorization(14, 2_000)) == Ok(REMNANT_PLAN)
  {
    hide MulNear, DivDown;
    IndexArithmetic(q.debt.data.borrowIndex);
    MulRay(1_000);
    assert Pow10(0) == 1;
  }

  /** Seven shares stay after the covered burn; they display 8 and are written off to the last. */
  lemma FlashDebtSettles(r: Reserve)
    requires 117 * RAY / 100 <= r.data.borrowIndex <= 120 * RAY / 100
    requires r.debt == Scaled(map[BORROWER := 12], 12) && r.deficit == 0
    ensures FlashSettleDebt(r, BORROWER, 7, true)
         == Ok((r.(debt := Scaled(map[BORROWER := 0], 0), deficit := 8, borrowBits := r.borrowBits - {BORROWER}), 0))
  {
    hide MulNear, DivDown;
    var index := r.data.borrowIndex;
    IndexArithmetic(index);
    assert map[BORROWER := 12][BORROWER := 7] == map[BORROWER := 7];
    assert map[BORROWER := 7][BORROWER := 0] == map[BORROWER := 0];
    assert DebtBurn(r.debt, BORROWER, 7, index) == Ok(Burned(5, 7, Scaled(map[BORROWER := 7], 7)));
    assert DebtBurn(Scaled(map[BORROWER := 7], 7), BORROWER, 8, index)
        == Ok(Burned(7, 0, Scaled(map[BORROWER := 0], 0)));
  }

  lemma FlashCollateralSettles(r: Reserve)
    requires r.data.liquidityIndex == RAY && r.supply == Scaled(map[BORROWER := 1_000], 1_000) && r.cash == 1_000
    ensures FlashSettleCollateral(r, BORROWER, 1_000)
         == Ok((r.(supply := Scaled(map[BORROWER := 0], 0), cash := 0, collateralBits := r.collateralBits - {BORROWER}),
                0))
  {
    hide MulNear, MulDown, DivUp;
    WholeShares(1_000);
    MulRay(0);
    assert MulDown(1_000, RAY) == 1_000;
    assert map[BORROWER := 1_000][BORROWER := 0] == map[BORROWER := 0];
    assert ATokenBurnAndTransfer(r.supply, BORROWER, 1_000, RAY)
        == Ok(Paid(1_000, 0, 1_000, Scaled(map[BORROWER := 0], 0)));
  }

  /**
   The prepared liquidation succeeds and the cover is lost: the reserve owed its suppliers nothing beyond what it
   owned before, and owes them more than five units beyond it afterwards. Rounding explains less than half of that.
   */
  lemma ExecutionLosesCover(p: Pair)
    requires HasLent(p.debt) && Idle(p.collateral)
    ensures AccruePair(p, SECONDS_PER_YEAR).Ok?
    ensures LentCover(p, LaterEnv(), BORROWER, Authorization(14, 2_000)) == 7
    ensures var done := ExecuteLiquidation(p, LaterEnv(), BORROWER, Authorization(14, 2_000));
            && done.Ok?
            && done.value.debt.debt == Scaled(map[BORROWER := 0], 0) && done.value.debt.borrowBits == {}
            && done.value.debt.cash == 988 && done.value.debt.deficit == 8
            && var accrued := AccruePair(p, SECONDS_PER_YEAR).value.debt;
               && Margin(accrued) > 0 && Margin(done.value.debt) < -5 * RAY
               && Margin(done.value.debt) + BurnCharge(accrued, done.value.debt) + 3 * RAY < Margin(accrued)
  {
    hide Accrue, FlashPlan, FlashSettleDebt, FlashSettleCollateral, RefreshRates, MulNear;
    YearPasses(p);
    var q := AccruePair(p, SECONDS_PER_YEAR).value;
    FlashPlanIsCapped(q);
    FlashDebtSettles(q.debt);
    FlashCollateralSettles(q.collateral);
    var moved := FlashMoves(q, LaterEnv(), BORROWER, Authorization(14, 2_000)).value.0;
    SmallProducts(1_000, moved.debt.data.liquidityIndex);
    SmallProducts(0, moved.debt.data.borrowIndex);
    SmallProducts(0, moved.collateral.data.liquidityIndex);
    SmallProducts(0, moved.collateral.data.borrowIndex);
    RatesExist(moved.debt, CURVE);
    RatesExist(moved.collateral, CURVE);
  }

  // ------------------------------------------------------------------ the borrower's account a year later

  /** The two reserves as a pool, for the account computation to read. */
  function PoolOf(q: Pair): Pool {
    map[0 := q.debt, 1 := q.collateral]
  }

  function LaterAccount(): AccountData {
    AccountData(7_000, 14_000, 0, 8_000, 7_500, LaterEnv().healthFactor)
  }

  lemma LaterBalances(q: Pair)
    requires YearLater(q)
    requires q.debt.debt.Of(BORROWER) == 12 && q.collateral.supply.Of(BORROWER) == 1_000
    ensures var w := AccountWorld(PoolOf(q), 0, SECONDS_PER_YEAR, BORROWER, 1_000, 7);
            && DebtBalance(w, ListingOf(0, q.debt)) == Ok(14)
            && CollateralBalance(w, ListingOf(1, q.collateral)) == Ok(1_000)
  {
    hide MulNear;
    IndexArithmetic(q.debt.data.borrowIndex);
    MulRay(1_000);
  }

  lemma LaterSums(q: Pair)
    requires YearLater(q)
    requires q.debt.debt.Of(BORROWER) == 12 && q.collateral.supply.Of(BORROWER) == 1_000
    requires BORROWER !in q.debt.collateralBits && BORROWER in q.debt.borrowBits
    requires BORROWER in q.collateral.collateralBits && BORROWER !in q.collateral.borrowBits
    ensures var w := AccountWorld(PoolOf(q), 0, SECONDS_PER_YEAR, BORROWER, 1_000, 7);
            && ActivePositions(w, w.flags, None)
               == [Position(LENT_ASSET, ListingOf(0, q.debt)), Position(PLEDGED_ASSET, ListingOf(1, q.collateral))]
            && PlainSums(w, w.flags) == Ok(Sums(7_000, 14_000, 56_000_000, 52_500_000))
  {
    hide ValueInBase, WeightedValue, CollateralBalance, DebtBalance;
    var w := AccountWorld(PoolOf(q), 0, SECONDS_PER_YEAR, BORROWER, 1_000, 7);
    var owed := Position(LENT_ASSET, ListingOf(0, q.debt));
    var pledge := Position(PLEDGED_ASSET, ListingOf(1, q.collateral));
    LaterBalances(q);
    assert Pow10(0) == 1;
    ValuesAreProducts(14, 1_000, 0, 1);
    ValuesAreProducts(1_000, 7, 8_000, 1);
    ValuesAreProducts(1_000, 7, 7_500, 1);
    assert PositionsBelow(w, w.flags, None, 1) == [owed];
    assert PositionsBelow(w, w.flags, None, 2) == [owed, pledge];
    assert PlainVisit(w, w.flags, owed, Sums(0, 0, 0, 0)) == Ok(Sums(0, 14_000, 0, 0));
    assert PlainVisit(w, w.flags, pledge, Sums(0, 14_000, 0, 0)) == Ok(Sums(7_000, 14_000, 56_000_000, 52_500_000));
    assert PlainScan(w, w.flags, [owed, pledge], 1) == Ok(Sums(0, 14_000, 0, 0));
  }

  lemma LaterFinishes()
    ensures Finish(Sums(7_000, 14_000, 56_000_000, 52_500_000)) == Ok(LaterAccount())
  {
    hide CeilingAverage, FloorAverage;
    SingleAverages(7_000);
    assert Times(Times(7_000, 8_000), WAD) == 56_000_000 * WAD;
    assert Quotient(56_000_000 * WAD, BASIS_POINTS) == 5_600 * WAD by {
      QuotientCancels(5_600 * WAD, BASIS_POINTS);
    }
    assert Quotient(5_600 * WAD, 14_000) == WAD * 2 / 5 by {
      QuotientCancels(WAD * 2 / 5, 14_000);
    }
  }

  /** The health factor the liquidations are given is the one the account computation finds. */
  lemma LaterHealth(q: Pair)
    requires YearLater(q)
    requires q.debt.debt.Of(BORROWER) == 12 && q.collateral.supply.Of(BORROWER) == 1_000
    requires BORROWER !in q.debt.collateralBits && BORROWER in q.debt.borrowBits
    requires BORROWER in q.collateral.collateralBits && BORROWER !in q.collateral.borrowBits
    ensures var answer := Unified(AccountWorld(PoolOf(q), 0, SECONDS_PER_YEAR, BORROWER, 1_000, 7), DEFAULTS);
            answer.Ok? && answer.value.account == LaterAccount()
  {
    hide PlainSums, Finish, PositionsBelow;
    var w := AccountWorld(PoolOf(q), 0, SECONDS_PER_YEAR, BORROWER, 1_000, 7);
    var positions := ActivePositions(w, w.flags, None);
    LaterSums(q);
    LaterFinishes();
    assert Agrees(w, DEFAULTS) by {
      UncachedAgrees(w, DEFAULTS);
    }
    assert PriceList([], positions) == [LENT_ASSET, PLEDGED_ASSET] by {
      assert positions[..1] == [positions[0]];
      assert PriceList([], [positions[0]]) == PriceList([], []) + [LENT_ASSET] by {
        assert [positions[0]][..0] == [];
      }
    }
    UnifiedIsPlain(w, DEFAULTS);
  }

  // ------------------------------------------------------------------ the two runs

  /** The run up to the loan is one the router makes, and leads to an account that may be liquidated. */
  lemma LoanIsReached()
    ensures var (before, lent) := (Run(map[], RemnantDeposits()), Run(map[], RemnantLoan()));
            && before.Keys == lent.Keys == {0, 1}
            && ValidateBorrow(AccountWorld(before, 0, 0, BORROWER, 1_000, 20), LENT_ASSET, 12, ListingOf(0, before[0]),
                              WAD) == Ok(())
            && HasLent(lent[0]) && Idle(lent[1])
            && var q := AccruePair(Pair(lent[0], lent[1]), SECONDS_PER_YEAR);
               && q.Ok?
               && var later := AccountWorld(PoolOf(q.value), 0, SECONDS_PER_YEAR, BORROWER, 1_000, 7);
                  Unified(later, DEFAULTS).Ok? && Unified(later, DEFAULTS).value.account == LaterAccount()
  {
    hide Run, CalculateRates, ValidateBorrow, AccountWorld, Unified, Accrue;
    assert Pow10(0) == 1;
    StoredRates();
    LoanHappens(CURVE, 0, LENDER, 1_000, BORROWER, 1_000, 12, 1_000, 20);
    var lent := Run(map[], RemnantLoan());
    YearPasses(Pair(lent[0], lent[1]));
    LaterHealth(AccruePair(Pair(lent[0], lent[1]), SECONDS_PER_YEAR).value);
  }

  /**
   Two shares are hidden: after the run the borrower's flag is clear, so that account computations skip the debt,
   while the token's entries and its total still count it.
   */
  lemma HiddenDebtHappens()
    ensures 0 in Run(map[], RemnantLoan() + [RemnantLiquidation()])
    ensures var r := Run(map[], RemnantLoan() + [RemnantLiquidation()])[0];
            BORROWER !in r.borrowBits && r.debt.Of(BORROWER) == 2 && r.debt.total == 2 && Backed(r.debt)
  {
    hide Run, LiquidationCall, ValidateBorrow, AccountWorld, Unified, Accrue, HasLent, Idle;
    LoanIsReached();
    var lent := Run(map[], RemnantLoan());
    LiquidationLeavesRemnant(Pair(lent[0], lent[1]));
    RunSplits(map[], RemnantLoan(), [RemnantLiquidation()]);
    RunOne(lent, RemnantLiquidation());
    SumUpdate(map[], BORROWER, 2);
  }

  /**
   The cover is lost in a run: no debt is left, and cash and deficit fall more than five units short of what the
   suppliers are owed.
   */
  lemma LostCoverHappens()
    ensures 0 in Run(map[], RemnantLoan() + [RemnantExecution()])
    ensures var r := Run(map[], RemnantLoan() + [RemnantExecution()])[0];
            r.cash == 988 && r.deficit == 8 && r.debt.total == 0 && Margin(r) < -5 * RAY
  {
    hide Run, ExecuteLiquidation, ValidateBorrow, AccountWorld, Unified, Accrue, HasLent, Idle, Margin, LentCover;
    LoanIsReached();
    var lent := Run(map[], RemnantLoan());
    ExecutionLosesCover(Pair(lent[0], lent[1]));
    RunSplits(map[], RemnantLoan(), [RemnantExecution()]);
    RunOne(lent, RemnantExecution());
  }
}
