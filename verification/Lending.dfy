/**
 A pool that lends: the deposits and the loan below go through under every validated curve, and the router's
 borrow check accepts the borrower's account as it stands in the pool. The theorems about runs are not empty.
 */
module Lending {
  import opened Common
  import opened RayMath
  import opened RateStrategy
  import opened Tokens
  import opened Reserves
  import opened Solvency
  import opened Liquidations
  import opened Accounts
  import opened AccountCaches
  import opened Health
  import opened Pools

  // ------------------------------------------------------------------ steps that go through

  /** A configuration without caps or minimum, and a call that meets no obstacle outside the ledger. */
  function OpenConfig(decimals: nat): Config {
    Config(true, false, false, true, decimals, 1_000, 0, 0, 0, 0, 0)
  }

  function OpenEnv(params: ValidParams): Env {
    Env(0, params, false, true, true, true)
  }

  lemma WholeShares(n: nat)
    ensures DivDown(n, RAY) == n && DivUp(n, RAY) == n
  {
  }

  /** Rates exist for every reserve whose displayed totals together fit 128 bits. */
  lemma RatesExist(r: Reserve, params: ValidParams)
    requires r.supply.total >= 0 && r.debt.total >= 0 && r.data.config.reserveFactor <= BASIS_POINTS
    requires MulNear(r.supply.total, r.data.liquidityIndex) + MulNear(r.debt.total, r.data.borrowIndex) <= U128_MAX
    ensures RefreshRates(r, params).Ok?
    ensures var r' := RefreshRates(r, params).value;
            r' == r.(data := r.data.(liquidityRate := r'.data.liquidityRate, borrowRate := r'.data.borrowRate))
  {
    var supply, debt := MulNear(r.supply.total, r.data.liquidityIndex), MulNear(r.debt.total, r.data.borrowIndex);
    RatesDefined(params, if supply > debt then supply - debt else 0, debt, r.data.config.reserveFactor);
    RefreshShape(r, params);
  }

  lemma SupplyHappens(params: ValidParams, decimals: nat, user: Address, amount: nat)
    requires MIN_FIRST_DEPOSIT <= amount <= 1_000_000
    ensures var r := NewReserve(0, OpenConfig(decimals));
            var done := Supply(r, OpenEnv(params), user, amount);
            && done.Ok?
            && done.value == r.(data := done.value.data, supply := Scaled(map[user := amount], amount), cash := amount,
                                collateralBits := {user})
            && done.value.data.(liquidityRate := 0, borrowRate := 0) == r.data
            && CalculateRates(params, amount, 0, 1_000) == Ok(Rates(done.value.data.liquidityRate,
                done.value.data.borrowRate))
  {
    hide RefreshRates, CalculateRates, DivDown;
    WholeShares(amount);
    var moved := SupplyMove(NewReserve(0, OpenConfig(decimals)), OpenEnv(params), user, amount).value;
    MulNearByRay(amount, RAY);
    RatesExist(moved, params);
    RefreshShape(moved, params);
  }

  lemma BorrowHappens(params: ValidParams, decimals: nat, r: Reserve, user: Address, amount: nat)
    requires r.data.(liquidityRate := 0, borrowRate := 0) == NewReserve(0, OpenConfig(decimals)).data
    requires r.cash == r.supply.total <= 1_000_000 && r.debt == Scaled(map[], 0) && r.borrowBits == {}
    requires 0 < amount <= r.cash
    ensures var done := Borrow(r, OpenEnv(params), user, amount);
            && done.Ok?
            && done.value == r.(data := done.value.data, debt := Scaled(map[user := amount], amount),
                                cash := r.cash - amount, borrowBits := {user})
            && done.value.data.(liquidityRate := 0, borrowRate := 0) == NewReserve(0, OpenConfig(decimals)).data
            && CalculateRates(params, r.cash - amount, amount, 1_000) == Ok(Rates(done.value.data.liquidityRate,
                done.value.data.borrowRate))
  {
    hide RefreshRates, CalculateRates, DivUp;
    WholeShares(amount);
    var moved := BorrowMove(r, OpenEnv(params), user, amount).value;
    MulNearByRay(amount, RAY);
    MulNearByRay(moved.supply.total, RAY);
    RatesExist(moved, params);
    RefreshShape(moved, params);
  }

  lemma {:induction false} RunSplits(p: Pool, before: seq<Action>, after: seq<Action>)
    ensures Run(p, before + after) == Run(Run(p, before), after)
    decreases |before|
  {
    hide Exec;
    if before == [] {
      assert before + after == after;
    } else {
      assert (before + after)[1..] == before[1..] + after;
      RunSplits(Exec(p, before[0]), before[1..], after);
    }
  }

  lemma RunOne(p: Pool, a: Action)
    ensures Run(p, [a]) == Exec(p, a)
  {
    hide Exec;
    assert [a][1..] == [];
  }

  lemma RunFour(p: Pool, a: Action, b: Action, c: Action, d: Action)
    ensures Run(p, [a, b, c, d]) == Exec(Exec(Exec(Exec(p, a), b), c), d)
  {
    hide Exec;
    assert [a, b, c, d] == [a] + ([b] + ([c] + [d]));
    RunSplits(p, [a], [b] + ([c] + [d]));
    RunSplits(Exec(p, a), [b], [c] + [d]);
    RunSplits(Exec(Exec(p, a), b), [c], [d]);
    RunOne(p, a);
    RunOne(Exec(p, a), b);
    RunOne(Exec(Exec(p, a), b), c);
    RunOne(Exec(Exec(Exec(p, a), b), c), d);
  }

  // ------------------------------------------------------------------ the borrower's account

  const LENT_ASSET: Address := 10
  const PLEDGED_ASSET: Address := 11

  /** A listing lends at 75 percent and liquidates at 80. */
  function ListingOf(id: nat, r: Reserve): Listing {
    Listing(id, 7_500, 8_000, 20 + id, 30 + id, r.data)
  }

  function FlagsIn(p: Pool, user: Address): Flags {
    Flags(set id | id in p.Keys && user in p[id].collateralBits, set id | id in p.Keys && user in p[id].borrowBits)
  }

  /** What the account computation reads in a pool of two reserves, at the given prices. */
  function AccountWorld(p: Pool, decimals: nat, now: nat, user: Address, lentPrice: nat, pledgedPrice: nat): World
    requires 0 in p && 1 in p
  {
    World(now, user, FlagsIn(p, user), 2, map[0 := LENT_ASSET, 1 := PLEDGED_ASSET],
          map[LENT_ASSET := ListingOf(0, p[0]), PLEDGED_ASSET := ListingOf(1, p[1])],
          map[20 := p[0].supply, 21 := p[1].supply, 30 := p[0].debt, 31 := p[1].debt],
          map[LENT_ASSET := lentPrice, PLEDGED_ASSET := pledgedPrice], Pow10(decimals))
  }

  lemma QuotientCancels(n: nat, d: nat)
    requires d > 0
    ensures Quotient(Times(n, d), d) == n
  {
    CompareQuotients(Quotient(Times(n, d), d), n, d);
    CompareQuotients(n, Quotient(Times(n, d), d), d);
  }

  /** With an oracle as precise as the asset, values are products. */
  lemma ValuesAreProducts(n: nat, price: nat, weight: nat, pow: nat)
    requires pow > 0 && n * price <= 1_000_000_000 && weight <= BASIS_POINTS
    ensures ValueInBase(n, price, pow, pow) == Ok(n * price)
    ensures WeightedValue(n, price, pow, weight, pow) == Ok(n * price * weight)
  {
    QuotientCancels(n * price, pow);
    QuotientCancels(n * price * weight, pow);
    assert Times(Times(n * price, pow), weight) == Times(n * price * weight, pow);
    MulMonotone(n * price, 1_000_000_000, weight, BASIS_POINTS);
  }

  /** The account of a value pledged at one listing's settings. */
  lemma SingleAverages(value: nat)
    requires 0 < value <= 1_000_000_000
    ensures CeilingAverage(value * 8_000, value) == Ok(8_000) && FloorAverage(value * 7_500, value) == Ok(7_500)
  {
    CompareQuotients(Quotient(value * 8_000 + value - 1, value), 8_000, value);
    CompareQuotients(8_000, Quotient(value * 8_000 + value - 1, value), value);
    CompareQuotients(Quotient(value * 7_500, value), 7_500, value);
    CompareQuotients(7_500, Quotient(value * 7_500, value), value);
  }

  /** A user whose only position is what it holds of the second reserve. */
  ghost predicate OnlyPledge(p: Pool, decimals: nat, user: Address, held: nat) {
    && p.Keys == {0, 1} && p[0].data.config.decimals == p[1].data.config.decimals == decimals
    && user in p[1].collateralBits && user !in p[0].collateralBits
    && user !in p[0].borrowBits && user !in p[1].borrowBits
    && p[1].data.liquidityIndex == RAY && p[1].supply.Of(user) == held
  }

  lemma PledgeSums(p: Pool, decimals: nat, user: Address, held: nat, lentPrice: nat, pledgedPrice: nat)
    requires OnlyPledge(p, decimals, user, held) && Pow10(decimals) <= 10_000_000
    requires 0 < held <= 1_000_000 && 0 < pledgedPrice && held * pledgedPrice <= 1_000_000_000
    ensures var w := AccountWorld(p, decimals, 0, user, lentPrice, pledgedPrice);
            && ActivePositions(w, w.flags, None) == [Position(PLEDGED_ASSET, ListingOf(1, p[1]))]
            && PlainSums(w, w.flags)
               == Ok(Sums(held * pledgedPrice, 0, held * pledgedPrice * 8_000, held * pledgedPrice * 7_500))
  {
    hide ValueInBase, WeightedValue, MulNear;
    var w := AccountWorld(p, decimals, 0, user, lentPrice, pledgedPrice);
    var pledge := Position(PLEDGED_ASSET, ListingOf(1, p[1]));
    assert PositionsBelow(w, w.flags, None, 1) == [];
    assert PositionsBelow(w, w.flags, None, 2) == [pledge];
    Pow10Positive(decimals);
    MulNearByRay(held, RAY);
    ValuesAreProducts(held, pledgedPrice, 8_000, Pow10(decimals));
    ValuesAreProducts(held, pledgedPrice, 7_500, Pow10(decimals));
    assert CollateralBalance(w, pledge.listing) == Ok(held);
    assert PlainScan(w, w.flags, [pledge], 0) == Ok(Sums(0, 0, 0, 0));
  }

  function BorrowParams(): Accounts.Params {
    DEFAULTS.(extras := Some([LENT_ASSET]), returnPrices := true)
  }

  /** The account as the borrow check asks for it, with the lent asset priced beside it. */
  lemma PledgeAnswer(w: World, pledge: Position)
    requires ActivePositions(w, w.flags, None) == [pledge] && pledge.asset == PLEDGED_ASSET
    requires LENT_ASSET in w.prices && PLEDGED_ASSET in w.prices
    requires PlainSums(w, w.flags).Ok? && Finish(PlainSums(w, w.flags).value).Ok?
    ensures Unified(w, BorrowParams()).Ok?
    ensures var answer := Unified(w, BorrowParams()).value;
            && Ok(answer.account) == Finish(PlainSums(w, w.flags).value)
            && answer.prices.Some? && Find(answer.prices.value, LENT_ASSET) == Find(w.prices, LENT_ASSET)
  {
    hide PlainSums, Finish, Scan, PositionsBelow;
    assert Agrees(w, BorrowParams()) by {
      UncachedAgrees(w, BorrowParams());
    }
    assert PriceList([LENT_ASSET], [pledge]) == [LENT_ASSET, PLEDGED_ASSET] by {
      assert [pledge][..0] == [];
    }
    UnifiedIsPlain(w, BorrowParams());
  }

  function PledgeAccount(value: nat): AccountData {
    AccountData(value, 0, value * 7_500 / BASIS_POINTS, 8_000, 7_500, U128_MAX)
  }

  lemma PledgeFinishes(value: nat)
    requires 0 < value <= 1_000_000_000
    ensures Finish(Sums(value, 0, value * 8_000, value * 7_500)) == Ok(PledgeAccount(value))
  {
    hide CeilingAverage, FloorAverage;
    SingleAverages(value);
  }

  lemma RatioIsSmall(value: nat, loan: nat)
    requires 0 < loan && value <= 1_000_000_000
    ensures Quotient(Quotient(Times(Times(value, 8_000), WAD), BASIS_POINTS), loan) <= U128_MAX
  {
    var inner := Quotient(Times(Times(value, 8_000), WAD), BASIS_POINTS);
    assert inner <= value * WAD;
    MulMonotone(Quotient(inner, loan), Quotient(inner, loan), 1, loan);
  }

  /** Three quarters of a pledge fit its loan-to-value line, and leave a health factor above one. */
  lemma LoanIsHealthy(value: nat, loan: nat)
    requires 0 < 4 * loan <= 3 * value <= 3_000_000_000
    ensures loan <= PledgeAccount(value).available
    ensures var health := SimulatedHealth(Simulation(PledgeAccount(value), loan)); health.Ok? && health.value >= WAD
  {
    hide Quotient;
    ScaledRatioAtLeastOne(Times(value, 8_000), loan);
    RatioIsSmall(value, loan);
  }

  lemma PriceIsPositive(amount: nat, price: nat)
    requires amount * price > 0
    ensures price > 0
  {
  }

  /** The router's borrow check accepts a loan of at most three quarters of the pledge's value. */
  lemma LoanIsAccepted(
      p: Pool, decimals: nat, user: Address, held: nat, amount: nat, lentPrice: nat, pledgedPrice: nat)
    requires OnlyPledge(p, decimals, user, held) && Pow10(decimals) <= 10_000_000
    requires 0 < held <= 1_000_000 && 0 < pledgedPrice && held * pledgedPrice <= 1_000_000_000
    requires 0 < amount * lentPrice && 4 * (amount * lentPrice) <= 3 * (held * pledgedPrice)
    ensures ValidateBorrow(AccountWorld(p, decimals, 0, user, lentPrice, pledgedPrice), LENT_ASSET, amount,
                           ListingOf(0, p[0]), WAD) == Ok(())
  {
    hide PlainSums, ValueInBase, Unified, Finish, SimulatedHealth, ActivePositions;
    var w := AccountWorld(p, decimals, 0, user, lentPrice, pledgedPrice);
    var (value, loan) := (held * pledgedPrice, amount * lentPrice);
    assert loan <= 1_000_000_000;
    PledgeSums(p, decimals, user, held, lentPrice, pledgedPrice);
    PledgeFinishes(value);
    PledgeAnswer(w, Position(PLEDGED_ASSET, ListingOf(1, p[1])));
    Pow10Positive(decimals);
    PriceIsPositive(amount, lentPrice);
    ValuesAreProducts(amount, lentPrice, 0, Pow10(decimals));
    LoanIsHealthy(value, loan);
  }

  // ------------------------------------------------------------------ the run

  /** Two reserves; a lender supplies one, and the borrower-to-be supplies the other. */
  function DepositRun(
      params: ValidParams, decimals: nat, lender: Address, supplied: nat, borrower: Address, pledged: nat): seq<Action>
  {
    var e := OpenEnv(params);
    [Init(0, 0, OpenConfig(decimals)), On(0, SupplyOp(e, lender, supplied)),
     Init(1, 0, OpenConfig(decimals)), On(1, SupplyOp(e, borrower, pledged))]
  }

  function Loan(params: ValidParams, borrower: Address, amount: nat): Action {
    On(0, BorrowOp(OpenEnv(params), borrower, amount))
  }

  /** A reserve with one supplier and no debt, as the first deposit leaves it. */
  ghost predicate Supplied(r: Reserve, params: ValidParams, decimals: nat, user: Address, amount: nat) {
    && r == NewReserve(0, OpenConfig(decimals)).(data := r.data, supply := Scaled(map[user := amount], amount),
                                                 cash := amount, collateralBits := {user})
    && r.data.(liquidityRate := 0, borrowRate := 0) == NewReserve(0, OpenConfig(decimals)).data
    && CalculateRates(params, amount, 0, 1_000) == Ok(Rates(r.data.liquidityRate, r.data.borrowRate))
  }

  /** The same reserve with a part of its cash lent out. */
  ghost predicate LentOut(
      r: Reserve, params: ValidParams, decimals: nat, lender: Address, supplied: nat, borrower: Address, amount: nat)
  {
    && amount <= supplied
    && r == NewReserve(0, OpenConfig(decimals)).(
              data := r.data, supply := Scaled(map[lender := supplied], supplied), cash := supplied - amount,
              debt := Scaled(map[borrower := amount], amount), collateralBits := {lender}, borrowBits := {borrower})
    && r.data.(liquidityRate := 0, borrowRate := 0) == NewReserve(0, OpenConfig(decimals)).data
    && CalculateRates(params, supplied - amount, amount, 1_000) == Ok(Rates(r.data.liquidityRate, r.data.borrowRate))
  }

  lemma DepositsHappen(
      params: ValidParams, decimals: nat, lender: Address, supplied: nat, borrower: Address, pledged: nat)
    requires MIN_FIRST_DEPOSIT <= supplied <= 1_000_000 && MIN_FIRST_DEPOSIT <= pledged <= 1_000_000
    ensures var p := Run(map[], DepositRun(params, decimals, lender, supplied, borrower, pledged));
            && p.Keys == {0, 1}
            && Supplied(p[0], params, decimals, lender, supplied) && Supplied(p[1], params, decimals, borrower, pledged)
  {
    hide Run, Supply, CalculateRates;
    SupplyHappens(params, decimals, lender, supplied);
    SupplyHappens(params, decimals, borrower, pledged);
    var actions := DepositRun(params, decimals, lender, supplied, borrower, pledged);
    assert actions == [actions[0], actions[1], actions[2], actions[3]];
    RunFour(map[], actions[0], actions[1], actions[2], actions[3]);
    var p1 := Exec(map[], actions[0]);
    var p2 := Exec(p1, actions[1]);
    var p3 := Exec(p2, actions[2]);
    var p4 := Exec(p3, actions[3]);
  }

  /** Deposits and loan both go through, and the loan is one the borrow check accepts at those prices. */
  lemma LoanHappens(
      params: ValidParams, decimals: nat, lender: Address, supplied: nat, borrower: Address, pledged: nat, amount: nat,
      lentPrice: nat, pledgedPrice: nat)
    requires lender != borrower && Pow10(decimals) <= 10_000_000
    requires MIN_FIRST_DEPOSIT <= supplied <= 1_000_000 && MIN_FIRST_DEPOSIT <= pledged <= 1_000_000
    requires 0 < amount <= supplied && 0 < pledgedPrice && pledged * pledgedPrice <= 1_000_000_000
    requires 0 < amount * lentPrice && 4 * (amount * lentPrice) <= 3 * (pledged * pledgedPrice)
    ensures var deposits := DepositRun(params, decimals, lender, supplied, borrower, pledged);
            var (before, after) := (Run(map[], deposits), Run(map[], deposits + [Loan(params, borrower, amount)]));
            && before.Keys == after.Keys == {0, 1}
            && ValidateBorrow(AccountWorld(before, decimals, 0, borrower, lentPrice, pledgedPrice), LENT_ASSET, amount,
                              ListingOf(0, before[0]), WAD) == Ok(())
            && LentOut(after[0], params, decimals, lender, supplied, borrower, amount)
            && Supplied(after[1], params, decimals, borrower, pledged)
  {
    hide Run, Borrow, CalculateRates, ValidateBorrow, AccountWorld;
    var deposits := DepositRun(params, decimals, lender, supplied, borrower, pledged);
    DepositsHappen(params, decimals, lender, supplied, borrower, pledged);
    var before := Run(map[], deposits);
    LoanIsAccepted(before, decimals, borrower, pledged, amount, lentPrice, pledgedPrice);
    RunSplits(map[], deposits, [Loan(params, borrower, amount)]);
    RunOne(before, Loan(params, borrower, amount));
    BorrowHappens(params, decimals, before[0], borrower, amount);
  }

  /** Under every validated curve: a million units supplied, 400000 of them lent against a million of another asset. */
  lemma LendingHappens(params: ValidParams)
    ensures var deposits := DepositRun(params, 7, 1, 1_000_000, 2, 1_000_000);
            var (before, after) := (Run(map[], deposits), Run(map[], deposits + [Loan(params, 2, 400_000)]));
            && before.Keys == after.Keys == {0, 1}
            && ValidateBorrow(AccountWorld(before, 7, 0, 2, 1, 1), LENT_ASSET, 400_000, ListingOf(0, before[0]), WAD)
               == Ok(())
            && after[0].cash == 600_000 && after[0].supply.Of(1) == 1_000_000 && after[0].debt.Of(2) == 400_000
            && after[0].collateralBits == {1} && after[0].borrowBits == {2}
            && after[1].supply.Of(2) == 1_000_000 && after[1].collateralBits == {2}
  {
    hide Run, DepositRun, Loan, ValidateBorrow, AccountWorld, CalculateRates;
    assert Pow10(7) == 10_000_000;
    LoanHappens(params, 7, 1, 1_000_000, 2, 1_000_000, 400_000, 1, 1);
  }
}
