/**
 The router's shortcut health checks against the account computation they stand for: the borrow check's
 loan-to-value test, the withdrawal check's subtracted sum, and the single-loop check of collateral swaps.
 */
module Health {
  import opened Common
  import opened RayMath
  import opened Tokens
  import opened Reserves
  import opened Liquidations
  import opened Accounts
  import opened AccountCaches

  const DEFAULTS: Params := Params(None, None, None, None, false, None)

  // ------------------------------------------------------------------ quotients

  /** Dividing twice and comparing with one is comparing the products. */
  lemma ScaledRatioAtLeastOne(n: nat, debt: nat)
    requires debt > 0
    ensures Quotient(Quotient(Times(n, WAD), BASIS_POINTS), debt) >= WAD <==> n >= Times(BASIS_POINTS, debt)
  {
    var inner := Quotient(Times(n, WAD), BASIS_POINTS);
    var ratio := Quotient(inner, debt);
    if n >= Times(BASIS_POINTS, debt) {
      assert n * WAD >= BASIS_POINTS * debt * WAD;
      assert inner >= Times(debt, WAD);
      CompareQuotients(WAD, ratio, debt);
    } else {
      assert n * WAD <= BASIS_POINTS * debt * WAD - WAD;
      assert inner < Times(debt, WAD);
      assert ratio * debt < WAD * debt;
    }
  }

  // ------------------------------------------------------------------ borrowing

  /** What the borrow check looks at: the account before, and the loan's value in base currency. */
  datatype Simulation = Simulation(account: AccountData, value: nat)

  function SimulateBorrow(w: World, asset: Address, amount: nat, l: Listing): Result<Simulation> {
    var answer :- Unified(w, DEFAULTS.(extras := Some([asset]), returnPrices := true));
    var price :- UsablePrice(Find(answer.prices.value, asset));
    var pow :- DecimalsPow(l.data);
    var value :- ValueInBase(amount, price, w.oracleToWad, pow);
    Ok(Simulation(answer.account, value))
  }

  /** The health factor after the simulated borrow. */
  function SimulatedHealth(s: Simulation): Result<nat> {
    var debt :- Fit(s.account.debt + s.value);
    HealthFactor(s.account.collateral, s.account.threshold, debt)
  }

  function ValidateBorrow(w: World, asset: Address, amount: nat, l: Listing, minimum: nat): Result<()> {
    var s :- SimulateBorrow(w, asset, amount, l);
    var _ :- Need(s.value <= s.account.available, InsufficientCollateral);
    var healthFactor :- SimulatedHealth(s);
    Need(healthFactor >= minimum, HealthFactorTooLow)
  }

  /** Every active reserve lends at most what it liquidates by; configurations keep a buffer of 50. */
  ghost predicate ThresholdsCoverLtvs(positions: seq<Position>) {
    forall p :: p in positions ==> p.listing.ltv <= p.listing.threshold
  }

  lemma WeightedMonotone(amount: nat, price: nat, oracleToWad: nat, low: nat, high: nat, pow: nat)
    requires pow > 0 && low <= high
    ensures WeightedValue(amount, price, oracleToWad, high, pow).Ok? ==>
              && WeightedValue(amount, price, oracleToWad, low, pow).Ok?
              && WeightedValue(amount, price, oracleToWad, low, pow).value
                 <= WeightedValue(amount, price, oracleToWad, high, pow).value
  {
    var base := Times(Times(amount, price), oracleToWad);
    assert Times(base, low) <= Times(base, high) by {
      assert base * (high - low) >= 0;
    }
    CompareQuotients(Quotient(Times(base, low), pow), Quotient(Times(base, high), pow), pow);
  }

  lemma VisitKeepsOrder(w: World, flags: Flags, p: Position, t: Sums)
    requires p.listing.ltv <= p.listing.threshold && t.ltvs <= t.thresholds
    requires PlainVisit(w, flags, p, t).Ok?
    ensures PlainVisit(w, flags, p, t).value.ltvs <= PlainVisit(w, flags, p, t).value.thresholds
  {
    hide CollateralBalance, DebtBalance, ValueInBase, WeightedValue, DecimalsPow;
    var held := CollateralBalance(w, p.listing);
    var pow := DecimalsPow(p.listing.data);
    var price := Find(w.prices, p.asset);
    if held.Ok? && price.Some? {
      WeightedMonotone(held.value, price.value, w.oracleToWad, p.listing.ltv, p.listing.threshold, pow.value);
    }
  }

  lemma {:induction false} ScanKeepsOrder(w: World, flags: Flags, positions: seq<Position>, n: nat)
    requires n <= |positions| && ThresholdsCoverLtvs(positions)
    requires PlainScan(w, flags, positions, n).Ok?
    ensures PlainScan(w, flags, positions, n).value.ltvs <= PlainScan(w, flags, positions, n).value.thresholds
  {
    hide PlainVisit;
    if n > 0 {
      ScanKeepsOrder(w, flags, positions, n - 1);
      VisitKeepsOrder(w, flags, positions[n - 1], PlainScan(w, flags, positions, n - 1).value);
    }
  }

  /** A floored average of the smaller sum is below a ceiled average of the larger. */
  lemma AveragesOrdered(low: nat, high: nat, total: nat)
    requires total > 0 && low <= high
    ensures Quotient(low, total) <= Quotient(high + total - 1, total)
    ensures Quotient(high + total - 1, total) * total >= high
  {
    CompareQuotients(Quotient(low, total), Quotient(high + total - 1, total), total);
  }

  /** What fits under the loan-to-value line is healthy by the threshold line. */
  lemma AvailableIsHealthy(collateral: nat, ltv: nat, threshold: nat, debt: nat, value: nat)
    requires ltv <= threshold && value > 0
    requires Available(collateral, ltv, debt).Ok? && value <= Available(collateral, ltv, debt).value
    ensures Times(collateral, threshold) >= Times(BASIS_POINTS, debt + value)
  {
    assert debt + value <= Times(collateral, ltv) / BASIS_POINTS;
    assert BASIS_POINTS * (debt + value) <= Times(collateral, ltv);
    assert collateral * ltv <= collateral * threshold;
  }

  /** The averages of an account keep the order of its reserves' settings. */
  lemma AccountOrdered(w: World, params: Params)
    requires params == DEFAULTS.(extras := params.extras, returnPrices := true)
    requires ThresholdsCoverLtvs(ActivePositions(w, w.flags, None)) && Unified(w, params).Ok?
    ensures var a := Unified(w, params).value.account;
            && a.ltv <= a.threshold
            && Available(a.collateral, a.ltv, a.debt) == Ok(a.available)
  {
    hide Unified, ActivePositions, PlainScan;
    assert Agrees(w, params) by {
      UncachedAgrees(w, params);
    }
    UnifiedIsPlain(w, params);
    var positions := ActivePositions(w, w.flags, None);
    var t := PlainSums(w, w.flags).value;
    ScanKeepsOrder(w, w.flags, positions, |positions|);
    if t.collateral > 0 {
      AveragesOrdered(t.ltvs, t.thresholds, t.collateral);
    }
  }

  /**
   The loan-to-value test implies health: any accepted borrow worth something in base currency leaves
   the simulated health factor at one or above, whatever minimum is configured.
   */
  lemma LtvTestImpliesHealth(w: World, asset: Address, amount: nat, l: Listing, minimum: nat)
    requires ThresholdsCoverLtvs(ActivePositions(w, w.flags, None))
    requires ValidateBorrow(w, asset, amount, l, minimum).Ok?
    ensures SimulateBorrow(w, asset, amount, l).Ok?
    ensures var health := SimulatedHealth(SimulateBorrow(w, asset, amount, l).value);
            health.Ok? && health.value >= minimum
    ensures SimulateBorrow(w, asset, amount, l).value.value > 0 ==>
              && SimulatedHealth(SimulateBorrow(w, asset, amount, l).value).Ok?
              && SimulatedHealth(SimulateBorrow(w, asset, amount, l).value).value >= WAD
  {
    hide ActivePositions, Unified, ValueInBase, DecimalsPow, Find;
    var s := SimulateBorrow(w, asset, amount, l).value;
    var a := s.account;
    if s.value > 0 {
      AccountOrdered(w, DEFAULTS.(extras := Some([asset]), returnPrices := true));
      AvailableIsHealthy(a.collateral, a.ltv, a.threshold, a.debt, s.value);
      ScaledRatioAtLeastOne(Times(a.collateral, a.threshold), a.debt + s.value);
    }
  }

  // ------------------------------------------------------------------ withdrawing

  function WithdrawParams(w: World, asset: Address): Params {
    DEFAULTS.(flags := Some(w.flags), extras := Some([asset]), returnPrices := true)
  }

  /** The withdrawn amount's own weighted value. */
  function Contribution(w: World, answer: Answer, asset: Address, amount: nat, l: Listing): Result<nat>
    requires answer.prices.Some?
  {
    var price :- UsablePrice(Find(answer.prices.value, asset));
    var pow :- DecimalsPow(l.data);
    WeightedValue(amount, price, w.oracleToWad, l.threshold, pow)
  }

  /** The doubly floored ratio of a weighted sum to a debt. */
  function SumRatio(sum: nat, debt: nat): nat
    requires debt > 0
  {
    Quotient(Quotient(Times(sum, WAD), BASIS_POINTS), debt)
  }

  /** Health from a weighted sum; a ratio too large to hold counts as zero. */
  function SumHealth(sum: nat, debt: nat): nat
    requires debt > 0
  {
    var ratio := Fit(SumRatio(sum, debt));
    if ratio.Ok? then ratio.value else 0
  }

  /** The check before a withdrawal: the amount's weighted value is subtracted from the sum. */
  function ValidateWithdraw(w: World, asset: Address, amount: nat, l: Listing, minimum: nat): Result<()> {
    var _ :- Need(l.id < MAX_RESERVES, MathOverflow);
    if !w.flags.Collateral(l.id) then Ok(())
    else
      var answer :- Unified(w, WithdrawParams(w, asset));
      if answer.account.debt == 0 then Ok(())
      else
        var part :- Contribution(w, answer, asset, amount, l);
        var left := if answer.thresholdSum >= part then answer.thresholdSum - part else 0;
        Need(SumHealth(left, answer.account.debt) >= minimum, HealthFactorTooLow)
  }

  /** Storage keeps one id per reserve: ids are never reused and a reserve knows its own. */
  ghost predicate Regular(w: World) {
    && (forall i, j :: i in w.assets && j in w.assets && w.assets[i] == w.assets[j] ==> i == j)
    && (forall i :: i in w.assets && w.assets[i] in w.listings ==> w.listings[w.assets[i]].id == i)
  }

  /** Positions of distinct assets, each flagged by its own id. */
  ghost predicate Distinct(flags: Flags, positions: seq<Position>) {
    && (forall i, j :: 0 <= i < j < |positions| ==> positions[i].asset != positions[j].asset)
    && (forall p :: p in positions ==> flags.Any(p.listing.id))
  }

  lemma {:induction false} RegularPositions(w: World, flags: Flags, n: nat)
    requires Regular(w)
    ensures Distinct(flags, PositionsBelow(w, flags, None, n))
    ensures forall p :: p in PositionsBelow(w, flags, None, n) ==>
              p.listing.id < n && p.listing.id in w.assets && w.assets[p.listing.id] == p.asset
    ensures forall id: nat :: id < n && flags.Any(id) && id in w.assets && w.assets[id] in w.listings ==>
              Position(w.assets[id], w.listings[w.assets[id]]) in PositionsBelow(w, flags, None, n)
  {
    if n > 0 {
      RegularPositions(w, flags, n - 1);
    }
  }

  /** Splitting a floored quotient loses at most one. */
  lemma FloorSplit(whole: nat, part: nat, d: nat)
    requires d > 0 && part <= whole
    ensures 0 <= Quotient(whole, d) - Quotient(part, d) - Quotient(whole - part, d) <= 1
  {
    var (q, p, r) := (Quotient(whole, d), Quotient(part, d), Quotient(whole - part, d));
    CompareQuotients(p + r, q, d);
    CompareQuotients(q, p + r + 1, d);
  }

  /** The cached balance of one asset lowered by an amount. */
  function Reduced(cache: BalanceCache, asset: Address, amount: nat): BalanceCache
    requires asset in cache && amount <= cache[asset].0
  {
    cache[asset := (cache[asset].0 - amount, cache[asset].1)]
  }

  /** `less` is `t` with `gone` taken off the weighted sum, and no larger elsewhere. */
  predicate Shrunk(t: Sums, less: Sums, gone: nat) {
    && less.thresholds + gone == t.thresholds && less.debt == t.debt
    && less.collateral <= t.collateral && less.ltvs <= t.ltvs
  }

  /** The same reading added to smaller sums still fits, and keeps the difference. */
  lemma SameReadingKeepsShrunk(t: Sums, less: Sums, gone: nat, flags: Flags, l: Listing, price: Option<nat>,
                               held: Result<nat>, owed: Result<nat>, oracleToWad: nat)
    requires Shrunk(t, less, gone)
    requires AddPosition(t, flags, l, price, held, owed, oracleToWad).Ok?
    ensures AddPosition(less, flags, l, price, held, owed, oracleToWad).Ok?
    ensures Shrunk(AddPosition(t, flags, l, price, held, owed, oracleToWad).value,
                   AddPosition(less, flags, l, price, held, owed, oracleToWad).value, gone)
  {
    hide ValueInBase, WeightedValue, DecimalsPow;
  }

  lemma Distribute(a: nat, b: nat, c: nat)
    ensures Times(a + b, c) == Times(a, c) + Times(b, c)
  {
  }

  lemma ValuesShrink(whole: nat, part: nat, price: nat, oracleToWad: nat, weight: nat, pow: nat)
    requires pow > 0 && part <= whole
    ensures WeightedValue(whole, price, oracleToWad, weight, pow).Ok? ==>
              && WeightedValue(part, price, oracleToWad, weight, pow).Ok?
              && WeightedValue(whole - part, price, oracleToWad, weight, pow).Ok?
              && 0 <= WeightedValue(whole, price, oracleToWad, weight, pow).value
                      - WeightedValue(part, price, oracleToWad, weight, pow).value
                      - WeightedValue(whole - part, price, oracleToWad, weight, pow).value <= 1
  {
    var (w, p) := (Times(Times(Times(whole, price), oracleToWad), weight), Times(Times(Times(part, price),
        oracleToWad), weight));
    var r := Times(Times(Times(whole - part, price), oracleToWad), weight);
    assert w == p + r by {
      assert Times(whole, price) == Times(part, price) + Times(whole - part, price);
      Distribute(Times(part, price), Times(whole - part, price), oracleToWad);
      Distribute(Times(Times(part, price), oracleToWad), Times(Times(whole - part, price), oracleToWad), weight);
    }
    FloorSplit(w, p, pow);
    assert w - p == r;
  }

  lemma BaseShrinks(whole: nat, rest: nat, price: nat, oracleToWad: nat, pow: nat)
    requires pow > 0 && rest <= whole
    ensures ValueInBase(whole, price, oracleToWad, pow).Ok? ==>
              && ValueInBase(rest, price, oracleToWad, pow).Ok?
              && ValueInBase(rest, price, oracleToWad, pow).value <= ValueInBase(whole, price, oracleToWad, pow).value
  {
    Distribute(rest, whole - rest, price);
    Distribute(Times(rest, price), Times(whole - rest, price), oracleToWad);
    CompareQuotients(Quotient(Times(Times(rest, price), oracleToWad), pow),
                     Quotient(Times(Times(whole, price), oracleToWad), pow), pow);
  }

  lemma NothingIsWorthNothing(price: nat, oracleToWad: nat, weight: nat, pow: nat)
    requires pow > 0
    ensures WeightedValue(0, price, oracleToWad, weight, pow) == Ok(0)
  {
    assert Times(Times(Times(0, price), oracleToWad), weight) == 0 by {
      assert Times(0, price) == 0;
      assert Times(0, oracleToWad) == 0;
      assert Times(0, weight) == 0;
    }
    CompareQuotients(Quotient(0, pow), 0, pow);
  }

  /** At the withdrawn asset itself the weighted sum drops by the contribution, or by one more. */
  lemma ReducedReading(t: Sums, flags: Flags, l: Listing, price: Option<nat>, held: nat, amount: nat,
                       owed: Result<nat>, oracleToWad: nat)
    requires flags.Collateral(l.id) && 0 < amount <= held
    requires AddPosition(t, flags, l, price, Ok(held), owed, oracleToWad).Ok?
    ensures DecimalsPow(l.data).Ok? && price.Some? && price.value > 0
    ensures WeightedValue(amount, price.value, oracleToWad, l.threshold, DecimalsPow(l.data).value).Ok?
    ensures AddPosition(t, flags, l, price, Ok(held - amount), owed, oracleToWad).Ok?
    ensures var part := WeightedValue(amount, price.value, oracleToWad, l.threshold, DecimalsPow(l.data).value).value;
            var (more, less) := (AddPosition(t, flags, l, price, Ok(held), owed, oracleToWad).value,
                                 AddPosition(t, flags, l, price, Ok(held - amount), owed, oracleToWad).value);
            Shrunk(more, less, part) || Shrunk(more, less, part + 1)
  {
    var pow := DecimalsPow(l.data).value;
    var p := price.value;
    ValuesShrink(held, amount, p, oracleToWad, l.threshold, pow);
    ValuesShrink(held, amount, p, oracleToWad, l.ltv, pow);
    BaseShrinks(held, held - amount, p, oracleToWad, pow);
    if held == amount {
      NothingIsWorthNothing(p, oracleToWad, l.threshold, pow);
    }
    hide ValueInBase, WeightedValue, DecimalsPow;
  }

  /** Once every position is cached, the cache no longer changes. */
  ghost predicate Full(positions: seq<Position>, cache: BalanceCache) {
    forall p :: p in positions ==> p.asset in cache
  }

  lemma {:induction false} ScanFillsCache(w: World, flags: Flags, prices: map<Address, nat>, known: BalanceCache,
                                          positions: seq<Position>, n: nat)
    requires n <= |positions| && Distinct(flags, positions)
    requires Scan(w, flags, prices, known, positions, n).Ok?
    ensures forall i :: 0 <= i < n ==> positions[i].asset in Scan(w, flags, prices, known, positions, n).value.1
  {
    hide AddCollateral, AddDebt, CollateralBalance, DebtBalance, DecimalsPow;
    if n > 0 {
      ScanFillsCache(w, flags, prices, known, positions, n - 1);
      assert flags.Any(positions[n - 1].listing.id);
    }
  }

  /** A position that is cached leaves the cache alone, and is read from it only. */
  lemma CachedVisit(w: World, flags: Flags, prices: map<Address, nat>, p: Position, t: Sums, cache: BalanceCache)
    requires p.asset in cache
    ensures var next := AddPosition(t, flags, p.listing, Find(prices, p.asset), Ok(cache[p.asset].0),
                                    Ok(cache[p.asset].1), w.oracleToWad);
            Visit(w, flags, prices, p, t, cache) == if next.Ok? then Ok((next.value, cache)) else Err(next.error)
  {
    hide AddPosition;
  }

  lemma {:induction false} FullCacheStays(w: World, flags: Flags, prices: map<Address, nat>, cache: BalanceCache,
                                          positions: seq<Position>, n: nat)
    requires n <= |positions| && Full(positions, cache)
    ensures Scan(w, flags, prices, cache, positions, n).Ok? ==>
              Scan(w, flags, prices, cache, positions, n).value.1 == cache
  {
    hide Visit;
    if n > 0 {
      FullCacheStays(w, flags, prices, cache, positions, n - 1);
      var before := Scan(w, flags, prices, cache, positions, n - 1);
      if before.Ok? {
        CachedVisit(w, flags, prices, positions[n - 1], before.value.0, cache);
      }
    }
  }

  /** The whole loop on the reduced balance: only the withdrawn asset's turn differs. */
  lemma {:induction false} ReducedScan(w: World, flags: Flags, prices: map<Address, nat>, cache: BalanceCache,
                                       positions: seq<Position>, k: nat, amount: nat, part: nat, n: nat)
    requires n <= |positions| && k < |positions| && Distinct(flags, positions) && Full(positions, cache)
    requires flags.Collateral(positions[k].listing.id) && 0 < amount <= cache[positions[k].asset].0
    requires Scan(w, flags, prices, cache, positions, n).Ok?
    requires DecimalsPow(positions[k].listing.data).Ok? && Find(prices, positions[k].asset).Some?
    requires WeightedValue(amount, Find(prices, positions[k].asset).value, w.oracleToWad,
                           positions[k].listing.threshold, DecimalsPow(positions[k].listing.data).value) == Ok(part)
    ensures var reduced := Scan(w, flags, prices, Reduced(cache, positions[k].asset, amount), positions, n);
            && reduced.Ok?
            && var (more, less) := (Scan(w, flags, prices, cache, positions, n).value.0, reduced.value.0);
               if n <= k then more == less else Shrunk(more, less, part) || Shrunk(more, less, part + 1)
  {
    hide Visit, AddPosition, WeightedValue, DecimalsPow, Find;
    var low := Reduced(cache, positions[k].asset, amount);
    if n > 0 {
      ReducedScan(w, flags, prices, cache, positions, k, amount, part, n - 1);
      FullCacheStays(w, flags, prices, cache, positions, n - 1);
      FullCacheStays(w, flags, prices, low, positions, n - 1);
      var p := positions[n - 1];
      var t := Scan(w, flags, prices, cache, positions, n - 1).value.0;
      var u := Scan(w, flags, prices, low, positions, n - 1).value.0;
      CachedVisit(w, flags, prices, p, t, cache);
      CachedVisit(w, flags, prices, p, u, low);
      var (price, owed) := (Find(prices, p.asset), Ok(cache[p.asset].1));
      if n - 1 == k {
        ReducedReading(t, flags, p.listing, price, cache[p.asset].0, amount, owed, w.oracleToWad);
      } else if n - 1 > k {
        assert p.asset != positions[k].asset;
        var gone := if Shrunk(t, u, part) then part else part + 1;
        SameReadingKeepsShrunk(t, u, gone, flags, p.listing, price, Ok(cache[p.asset].0), owed, w.oracleToWad);
      } else {
        assert p.asset != positions[k].asset;
      }
    }
  }

  /** A position that counts has decimals and a price. */
  lemma {:induction false} HeldIsPriced(w: World, flags: Flags, prices: map<Address, nat>, cache: BalanceCache,
                                        positions: seq<Position>, k: nat, amount: nat, n: nat)
    requires k < n <= |positions| && Full(positions, cache)
    requires flags.Collateral(positions[k].listing.id) && 0 < amount <= cache[positions[k].asset].0
    requires Scan(w, flags, prices, cache, positions, n).Ok?
    ensures DecimalsPow(positions[k].listing.data).Ok? && UsablePrice(Find(prices, positions[k].asset)).Ok?
    ensures WeightedValue(amount, Find(prices, positions[k].asset).value, w.oracleToWad,
                          positions[k].listing.threshold, DecimalsPow(positions[k].listing.data).value).Ok?
    decreases n
  {
    hide Visit, AddPosition, WeightedValue, DecimalsPow, Find;
    FullCacheStays(w, flags, prices, cache, positions, n - 1);
    if n - 1 == k {
      var p := positions[k];
      var t := Scan(w, flags, prices, cache, positions, n - 1).value.0;
      CachedVisit(w, flags, prices, p, t, cache);
      ReducedReading(t, flags, p.listing, Find(prices, p.asset), cache[p.asset].0, amount, Ok(cache[p.asset].1),
          w.oracleToWad);
    } else {
      HeldIsPriced(w, flags, prices, cache, positions, k, amount, n - 1);
    }
  }

  /** The account computation again, on the balances it returned with one of them lowered. */
  function Recompute(w: World, answer: Answer, asset: Address, amount: nat): Result<Sums>
    requires answer.prices.Some? && asset in answer.balances && amount <= answer.balances[asset].0
  {
    var positions := ActivePositions(w, w.flags, None);
    var (t, _) :- Scan(w, w.flags, answer.prices.value, Reduced(answer.balances, asset, amount), positions,
        |positions|);
    Ok(t)
  }

  lemma NothingCachedAgrees(w: World, flags: Flags, positions: seq<Position>)
    ensures BalancesAgree(w, flags, positions, map[])
  {
  }

  /** Scanning again on the returned balances gives the same sums. */
  lemma SecondScan(w: World, params: Params)
    requires FlagsOf(w, params) == w.flags && params.listings == None && params.prices == None && params.balances
        == None
    requires params.returnPrices && Unified(w, params).Ok?
    ensures var answer := Unified(w, params).value;
            var positions := ActivePositions(w, w.flags, None);
            var again := Scan(w, w.flags, answer.prices.value, answer.balances, positions, |positions|);
            && again.Ok? && again.value.0.thresholds == answer.thresholdSum
            && again.value.0.debt == answer.account.debt
  {
    hide PositionsBelow, Scan, PlainScan, PriceMap, PriceList, BalancesAgree, Stored;
    var answer := Unified(w, params).value;
    var positions := ActivePositions(w, w.flags, None);
    PositionsAreStored(w, w.flags, Min(w.nextId, MAX_RESERVES));
    PricesTransparent(w, ExtrasOf(params), positions, None);
    assert BalancesAgree(w, w.flags, positions, map[]) by {
      NothingCachedAgrees(w, w.flags, positions);
    }
    ScanTransparent(w, w.flags, answer.prices.value, map[], positions, |positions|);
    ScanTransparent(w, w.flags, answer.prices.value, answer.balances, positions, |positions|);
  }

  /**
   The withdrawal check's shortcut: the sum it keeps is the recomputed one or one more, and the debt it
   divides by is the recomputed debt. `l` is the reserve with its indices moved on.
   */
  lemma WithdrawSumWithinOne(w: World, id: nat, amount: nat, l: Listing)
    requires Regular(w) && id < w.nextId && w.flags.Collateral(id)
    requires id in w.assets && w.assets[id] in w.listings
    requires var stored := w.listings[w.assets[id]];
             l.threshold == stored.threshold && l.data.config.decimals == stored.data.config.decimals
    requires Unified(w, WithdrawParams(w, w.assets[id])).Ok? && amount > 0
    ensures var answer := Unified(w, WithdrawParams(w, w.assets[id])).value;
            && answer.prices.Some? && w.assets[id] in answer.balances
            && (amount <= answer.balances[w.assets[id]].0 ==>
                  && Contribution(w, answer, w.assets[id], amount, l).Ok?
                  && Recompute(w, answer, w.assets[id], amount).Ok?
                  && var (part, again) := (Contribution(w, answer, w.assets[id], amount, l).value,
                                           Recompute(w, answer, w.assets[id], amount).value);
                     && again.debt == answer.account.debt
                     && 0 <= answer.thresholdSum - part - again.thresholds <= 1)
  {
    hide PositionsBelow, Scan, PriceMap, PriceList, WeightedValue, Find;
    var asset := w.assets[id];
    var params := WithdrawParams(w, asset);
    var answer := Unified(w, params).value;
    var prices := answer.prices.value;
    var positions := ActivePositions(w, w.flags, None);
    var bound := Min(w.nextId, MAX_RESERVES);
    RegularPositions(w, w.flags, bound);
    ScanFillsCache(w, w.flags, prices, map[], positions, |positions|);
    var k :| 0 <= k < |positions| && positions[k] == Position(asset, w.listings[asset]);
    assert asset in answer.balances;
    if amount <= answer.balances[asset].0 {
      SecondScan(w, params);
      HeldIsPriced(w, w.flags, prices, answer.balances, positions, k, amount, |positions|);
      var part := Contribution(w, answer, asset, amount, l).value;
      ReducedScan(w, w.flags, prices, answer.balances, positions, k, amount, part, |positions|);
    }
  }

  /** What one more in the weighted sum does to the ratio. */
  lemma RatioStep(sum: nat, debt: nat)
    requires debt > 0
    ensures SumRatio(sum, debt) <= SumRatio(sum + 1, debt)
    ensures SumRatio(sum + 1, debt) <= SumRatio(sum, debt) + Quotient(WAD / BASIS_POINTS, debt) + 1
  {
    var step := WAD / BASIS_POINTS;
    assert Quotient(Times(sum, WAD), BASIS_POINTS) == Times(sum, step);
    assert Quotient(Times(sum + 1, WAD), BASIS_POINTS) == Times(sum, step) + step;
    FloorSplit(Times(sum, step) + step, step, debt);
  }

  /**
   The verdict of the withdrawal check against the recomputed account. The check is the health test on the
   recomputed sum, or on one more where the shortcut is one short. So whatever passes on the recomputed sum
   passes the check, unless one more makes a ratio that no longer fits; and what the check accepts misses the
   recomputed test only by that one, which moves the ratio by at most one for debts above WAD / BASIS_POINTS.
   Without debt, or without the collateral flag, the check lets everything pass.
   */
  lemma WithdrawVerdict(w: World, id: nat, amount: nat, l: Listing, minimum: nat)
    requires Regular(w) && id < w.nextId && l.id == id < MAX_RESERVES && amount > 0
    requires id in w.assets && w.assets[id] in w.listings
    requires var stored := w.listings[w.assets[id]];
             l.threshold == stored.threshold && l.data.config.decimals == stored.data.config.decimals
    ensures forall big: Listing :: big.id >= MAX_RESERVES ==>
              ValidateWithdraw(w, w.assets[id], amount, big, minimum).Err?
    ensures !w.flags.Collateral(id) ==> ValidateWithdraw(w, w.assets[id], amount, l, minimum).Ok?
    ensures w.flags.Collateral(id) && Unified(w, WithdrawParams(w, w.assets[id])).Ok? ==>
              var (asset, verdict) := (w.assets[id], ValidateWithdraw(w, w.assets[id], amount, l, minimum));
              var answer := Unified(w, WithdrawParams(w, asset)).value;
              var debt := answer.account.debt;
              && (debt == 0 ==> verdict.Ok?)
              && answer.prices.Some? && asset in answer.balances
              && (debt > 0 && amount <= answer.balances[asset].0 ==>
                    && Contribution(w, answer, asset, amount, l).Ok? && Recompute(w, answer, asset, amount).Ok?
                    && var again := Recompute(w, answer, asset, amount).value.thresholds;
                       var short := answer.thresholdSum - Contribution(w, answer, asset, amount, l).value - again;
                       && 0 <= short <= 1
                       && (verdict.Ok? <==> SumHealth(again + short, debt) >= minimum)
                       && (SumHealth(again, debt) >= minimum && SumRatio(again + 1, debt) <= U128_MAX ==> verdict.Ok?)
                       && (verdict.Ok? && SumHealth(again, debt) < minimum ==> short == 1)
                       && (verdict.Ok? ==> SumRatio(again, debt) + Quotient(WAD / BASIS_POINTS, debt) + 1 >= minimum))
  {
    hide Unified, Contribution, Recompute, SumRatio;
    var asset := w.assets[id];
    if w.flags.Collateral(id) && Unified(w, WithdrawParams(w, asset)).Ok? {
      WithdrawSumWithinOne(w, id, amount, l);
      var answer := Unified(w, WithdrawParams(w, asset)).value;
      if answer.account.debt > 0 && amount <= answer.balances[asset].0 {
        RatioStep(Recompute(w, answer, asset, amount).value.thresholds, answer.account.debt);
      }
    }
  }
}
