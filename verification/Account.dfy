/**
 A user's account over all reserves: the value of collateral and debt in base currency, the averages
 the protocol lends and liquidates by, and the health factor. The router computes it with optional
 caches of prices, reserve data and balances; the account is what it would be without them.
 */
module Accounts {
  import opened Common
  import opened RayMath
  import opened Interest
  import opened Tokens
  import opened Reserves
  import opened Liquidations

  const MAX_RESERVES: nat := 64

  /** A reserve as the account computation reads it. */
  datatype Listing = Listing(id: nat, ltv: nat, threshold: nat, aToken: Address, debtToken: Address, data: Data)

  /** The user's two flags per reserve id. */
  datatype Flags = Flags(collateral: set<nat>, borrowing: set<nat>) {
    predicate Collateral(id: nat) {
      id < MAX_RESERVES && id in collateral
    }

    predicate Borrowing(id: nat) {
      id < MAX_RESERVES && id in borrowing
    }

    predicate Any(id: nat) {
      Collateral(id) || Borrowing(id)
    }
  }

  /** Router storage, the token contracts and the fresh oracle prices, as one call sees them. */
  datatype World = World(
    now: nat, user: Address, flags: Flags, nextId: nat, assets: map<nat, Address>, listings: map<Address, Listing>,
    tokens: map<Address, Scaled>, prices: map<Address, nat>, oracleToWad: nat)

  type BalanceCache = map<Address, (nat, nat)>

  datatype Params = Params(
    prices: Option<map<Address, nat>>, listings: Option<map<Address, Listing>>, flags: Option<Flags>,
    extras: Option<seq<Address>>, returnPrices: bool, balances: Option<BalanceCache>)

  datatype AccountData = AccountData(
    collateral: nat, debt: nat, available: nat, threshold: nat, ltv: nat, healthFactor: nat)

  datatype Answer = Answer(
    account: AccountData, prices: Option<map<Address, nat>>, balances: BalanceCache, thresholdSum: nat)

  datatype Position = Position(asset: Address, listing: Listing)

  /** Running totals in base currency; the last two are weighted by basis points. */
  datatype Sums = Sums(collateral: nat, debt: nat, thresholds: nat, ltvs: nat)

  // ------------------------------------------------------------------ one position

  function CurrentBorrowIndex(d: Data, now: nat): Result<nat> {
    if now < d.lastUpdate then Err(MathOverflow)
    else if now == d.lastUpdate then Ok(d.borrowIndex)
    else
      var compound :- CompoundFactor(d.borrowRate, d.lastUpdate, now);
      RayMul(d.borrowIndex, compound)
  }

  /** The displayed balance at the index last stored. */
  function CollateralBalance(w: World, l: Listing): Result<nat> {
    if l.aToken !in w.tokens then Err(TokenCallFailed)
    else OrElse(BalanceWithIndex(w.tokens[l.aToken], w.user, l.data.liquidityIndex), TokenCallFailed)
  }

  /** The displayed debt at the index accrued to now. */
  function DebtBalance(w: World, l: Listing): Result<nat> {
    var index :- CurrentBorrowIndex(l.data, w.now);
    if l.debtToken !in w.tokens then Err(TokenCallFailed)
    else OrElse(BalanceWithIndex(w.tokens[l.debtToken], w.user, index), TokenCallFailed)
  }

  /** A value weighted by basis points, floored once. */
  function WeightedValue(amount: nat, price: nat, oracleToWad: nat, weight: nat, decimalsPow: nat): Result<nat>
    requires decimalsPow > 0
  {
    Fit(Quotient(Times(Times(Times(amount, price), oracleToWad), weight), decimalsPow))
  }

  function UsablePrice(price: Option<nat>): Result<nat> {
    if price == None || price.value == 0 then Err(PriceOracleNotFound) else Ok(price.value)
  }

  function AddCollateral(t: Sums, l: Listing, balance: nat, price: Option<nat>, oracleToWad: nat,
      pow: nat): Result<Sums>
    requires pow > 0
  {
    var p :- UsablePrice(price);
    var value :- ValueInBase(balance, p, oracleToWad, pow);
    var collateral :- Fit(t.collateral + value);
    var threshold :- WeightedValue(balance, p, oracleToWad, l.threshold, pow);
    var thresholds :- Fit(t.thresholds + threshold);
    var ltv :- WeightedValue(balance, p, oracleToWad, l.ltv, pow);
    var ltvs :- Fit(t.ltvs + ltv);
    Ok(t.(collateral := collateral, thresholds := thresholds, ltvs := ltvs))
  }

  function AddDebt(t: Sums, balance: nat, price: Option<nat>, oracleToWad: nat, pow: nat): Result<Sums>
    requires pow > 0
  {
    var p :- UsablePrice(price);
    var value :- ValueInBase(balance, p, oracleToWad, pow);
    var debt :- Fit(t.debt + value);
    Ok(t.(debt := debt))
  }

  /** One position's contribution, given where its price and balances come from. */
  function AddPosition(t: Sums, flags: Flags, l: Listing, price: Option<nat>,
                       collateral: Result<nat>, debt: Result<nat>, oracleToWad: nat): Result<Sums> {
    var pow :- DecimalsPow(l.data);
    var _ :- Need(l.id < MAX_RESERVES, MathOverflow);
    var held :- if flags.Collateral(l.id) then collateral else Ok(0);
    var t :- if held > 0 then AddCollateral(t, l, held, price, oracleToWad, pow) else Ok(t);
    var owed :- if flags.Borrowing(l.id) then debt else Ok(0);
    if owed > 0 then AddDebt(t, owed, price, oracleToWad, pow) else Ok(t)
  }

  function Find<V>(m: map<Address, V>, asset: Address): Option<V> {
    if asset in m then Some(m[asset]) else None
  }

  // ------------------------------------------------------------------ which positions, which prices

  function FindListing(w: World, known: Option<map<Address, Listing>>, asset: Address): Option<Listing> {
    if known.Some? && asset in known.value then Some(known.value[asset]) else Find(w.listings, asset)
  }

  /** The positions of ids below n, in order; an id without a reserve is skipped. */
  function PositionsBelow(w: World, flags: Flags, known: Option<map<Address, Listing>>, n: nat): seq<Position> {
    if n == 0 then []
    else
      var before := PositionsBelow(w, flags, known, n - 1);
      if !flags.Any(n - 1) || n - 1 !in w.assets then before
      else
        var asset := w.assets[n - 1];
        var listing := FindListing(w, known, asset);
        if listing.Some? then before + [Position(asset, listing.value)] else before
  }

  function ActivePositions(w: World, flags: Flags, known: Option<map<Address, Listing>>): seq<Position> {
    PositionsBelow(w, flags, known, Min(w.nextId, MAX_RESERVES))
  }

  function ExtrasOf(params: Params): seq<Address> {
    if params.extras.Some? then params.extras.value else []
  }

  /** The assets to price: the extras first, then every position not among them. */
  function PriceList(extras: seq<Address>, positions: seq<Position>): seq<Address>
    decreases |positions|
  {
    if positions == [] then extras
    else
      var last := |positions| - 1;
      var before := PriceList(extras, positions[..last]);
      if positions[last].asset in extras then before else before + [positions[last].asset]
  }

  function Missing(assets: seq<Address>, known: map<Address, nat>): seq<Address>
    decreases |assets|
  {
    if assets == [] then []
    else
      var last := |assets| - 1;
      var before := Missing(assets[..last], known);
      if assets[last] in known then before else before + [assets[last]]
  }

  /** One oracle batch: all or nothing, and never more than 64 assets. */
  predicate Fetchable(w: World, assets: seq<Address>) {
    |assets| <= MAX_RESERVES && forall a :: a in assets ==> a in w.prices
  }

  function FetchPrices(w: World, assets: seq<Address>): Result<map<Address, nat>> {
    if !Fetchable(w, assets) then Err(PriceOracleNotFound) else Ok(map a | a in assets :: w.prices[a])
  }

  /** What must come from the oracle after the known prices are used. */
  function FetchList(assets: seq<Address>, known: Option<map<Address, nat>>): seq<Address> {
    if known.Some? then Missing(assets, known.value) else assets
  }

  function PriceMap(w: World, assets: seq<Address>, known: Option<map<Address, nat>>): Result<map<Address, nat>> {
    var fetched :- FetchPrices(w, FetchList(assets, known));
    Ok(if known.Some? then known.value + fetched else fetched)
  }

  // ------------------------------------------------------------------ the account with caches

  function HeldWithCache(w: World, p: Position, cache: BalanceCache): Result<nat> {
    if p.asset in cache then Ok(cache[p.asset].0) else CollateralBalance(w, p.listing)
  }

  function OwedWithCache(w: World, p: Position, cache: BalanceCache): Result<nat> {
    if p.asset in cache then Ok(cache[p.asset].1) else DebtBalance(w, p.listing)
  }

  /** A queried position enters the cache, with zero for a side whose flag is not set. */
  function Remember(w: World, flags: Flags, p: Position, cache: BalanceCache): BalanceCache {
    if p.asset in cache || !flags.Any(p.listing.id) then cache
    else
      var held := if flags.Collateral(p.listing.id) then CollateralBalance(w, p.listing) else Ok(0);
      var owed := if flags.Borrowing(p.listing.id) then DebtBalance(w, p.listing) else Ok(0);
      if held.Ok? && owed.Ok? then cache[p.asset := (held.value, owed.value)] else cache
  }

  function Visit(w: World, flags: Flags, prices: map<Address, nat>, p: Position, t: Sums, cache: BalanceCache)
    : Result<(Sums, BalanceCache)> {
    var next :- AddPosition(t, flags, p.listing, Find(prices, p.asset), HeldWithCache(w, p, cache),
                            OwedWithCache(w, p, cache), w.oracleToWad);
    Ok((next, Remember(w, flags, p, cache)))
  }

  /** The running totals and the cache after the first n positions. */
  function Scan(w: World, flags: Flags, prices: map<Address, nat>, known: BalanceCache,
                positions: seq<Position>, n: nat): Result<(Sums, BalanceCache)>
    requires n <= |positions|
  {
    if n == 0 then Ok((Sums(0, 0, 0, 0), known))
    else
      var (t, cache) :- Scan(w, flags, prices, known, positions, n - 1);
      Visit(w, flags, prices, positions[n - 1], t, cache)
  }

  function CeilingAverage(sum: nat, total: nat): Result<nat> {
    if total == 0 then Ok(0) else Fit(Quotient(sum + total - 1, total))
  }

  function FloorAverage(sum: nat, total: nat): Result<nat> {
    if total == 0 then Ok(0) else Fit(Quotient(sum, total))
  }

  /** Collateral times threshold over debt; without debt, the largest number there is. */
  function HealthFactor(collateral: nat, threshold: nat, debt: nat): Result<nat> {
    if debt == 0 then Ok(U128_MAX)
    else Fit(Quotient(Quotient(Times(Times(collateral, threshold), WAD), BASIS_POINTS), debt))
  }

  function Available(collateral: nat, ltv: nat, debt: nat): Result<nat> {
    var weighted :- Fit(Times(collateral, ltv));
    var most := weighted / BASIS_POINTS;
    Ok(if most >= debt then most - debt else 0)
  }

  function Finish(t: Sums): Result<AccountData> {
    var threshold :- CeilingAverage(t.thresholds, t.collateral);
    var ltv :- FloorAverage(t.ltvs, t.collateral);
    var healthFactor :- HealthFactor(t.collateral, threshold, t.debt);
    var available :- Available(t.collateral, ltv, t.debt);
    Ok(AccountData(t.collateral, t.debt, available, threshold, ltv, healthFactor))
  }

  function FlagsOf(w: World, params: Params): Flags {
    if params.flags.Some? then params.flags.value else w.flags
  }

  function CacheOf(params: Params): BalanceCache {
    if params.balances.Some? then params.balances.value else map[]
  }

  function Unified(w: World, params: Params): Result<Answer> {
    var flags := FlagsOf(w, params);
    var positions := ActivePositions(w, flags, params.listings);
    var prices :- PriceMap(w, PriceList(ExtrasOf(params), positions), params.prices);
    var (t, cache) :- Scan(w, flags, prices, CacheOf(params), positions, |positions|);
    var account :- Finish(t);
    Ok(Answer(account, if params.returnPrices then Some(prices) else None, cache, t.thresholds))
  }

  // ------------------------------------------------------------------ the loops of the router

  method Contains(assets: seq<Address>, asset: Address) returns (found: bool)
    ensures found <==> asset in assets
  {
    found := false;
    for i := 0 to |assets|
      invariant !found && asset !in assets[..i]
    {
      if assets[i] == asset {
        found := true;
        break;
      }
    }
  }

  lemma PriceListStart(extras: seq<Address>)
    ensures PriceList(extras, []) == extras
  {
  }

  lemma PriceListNext(extras: seq<Address>, positions: seq<Position>, p: Position)
    ensures PriceList(extras, positions + [p])
         == PriceList(extras, positions) + if p.asset in extras then [] else [p.asset]
  {
    assert (positions + [p])[..|positions|] == positions;
  }

  /** The first loop: active positions and, beside them, the list of assets to price. */
  method CollectPositions(w: World, flags: Flags, known: Option<map<Address, Listing>>, extras: seq<Address>)
    returns (positions: seq<Position>, assets: seq<Address>)
    ensures positions == ActivePositions(w, flags, known)
    ensures assets == PriceList(extras, positions)
  {
    hide FindListing, PriceList;
    PriceListStart(extras);
    positions, assets := [], extras;
    var bound := Min(w.nextId, MAX_RESERVES);
    for id := 0 to bound
      invariant positions == PositionsBelow(w, flags, known, id)
      invariant assets == PriceList(extras, positions)
    {
      if (flags.Collateral(id) || flags.Borrowing(id)) && id in w.assets {
        var asset := w.assets[id];
        var listing := FindListing(w, known, asset);
        if listing.Some? {
          var isDuplicate := Contains(extras, asset);
          if !isDuplicate {
            assets := assets + [asset];
          }
          PriceListNext(extras, positions, Position(asset, listing.value));
          positions := positions + [Position(asset, listing.value)];
        }
      }
    }
  }

  method MissingAssets(assets: seq<Address>, known: map<Address, nat>) returns (missing: seq<Address>)
    ensures missing == Missing(assets, known)
  {
    missing := [];
    for i := 0 to |assets|
      invariant missing == Missing(assets[..i], known)
    {
      assert assets[..i + 1][..i] == assets[..i];
      if assets[i] !in known {
        missing := missing + [assets[i]];
      }
    }
    assert assets[..|assets|] == assets;
  }

  lemma NothingMissing(w: World, known: map<Address, nat>)
    ensures FetchPrices(w, []) == Ok(map[]) && known + map[] == known
  {
    assert FetchPrices(w, []).value.Keys == {};
  }

  /** Each missing asset's fetched price joins the known ones. */
  method MergePrices(known: map<Address, nat>, fetched: map<Address, nat>, missing: seq<Address>)
    returns (merged: map<Address, nat>)
    requires forall a :: a in missing <==> a in fetched
    ensures merged == known + fetched
  {
    merged := known;
    for i := 0 to |missing|
      invariant forall a :: a in merged <==> a in known || a in missing[..i]
      invariant forall a :: a in merged ==> merged[a] == if a in missing[..i] then fetched[a] else known[a]
    {
      assert missing[..i + 1] == missing[..i] + [missing[i]];
      merged := merged[missing[i] := fetched[missing[i]]];
    }
    assert missing[..|missing|] == missing;
  }

  method ResolvePrices(w: World, assets: seq<Address>, known: Option<map<Address, nat>>)
    returns (r: Result<map<Address, nat>>)
    ensures r == PriceMap(w, assets, known)
  {
    if known == None {
      r := FetchPrices(w, assets);
      return;
    }
    var missing := MissingAssets(assets, known.value);
    if missing == [] {
      NothingMissing(w, known.value);
      return Ok(known.value);
    }
    var fetched :- FetchPrices(w, missing);
    var merged := MergePrices(known.value, fetched, missing);
    return Ok(merged);
  }

  /** One turn of the main loop. */
  method VisitPosition(w: World, flags: Flags, prices: map<Address, nat>, p: Position, t0: Sums, cache0: BalanceCache)
    returns (r: Result<(Sums, BalanceCache)>)
    ensures r == Visit(w, flags, prices, p, t0, cache0)
  {
    hide AddCollateral, AddDebt, CollateralBalance, DebtBalance, DecimalsPow;
    var t, cache := t0, cache0;
    var l := p.listing;
    var pow :- DecimalsPow(l.data);
    var _ :- Need(l.id < MAX_RESERVES, MathOverflow);
    var isCollateral := flags.Collateral(l.id);
    var isBorrowing := flags.Borrowing(l.id);
    var cached := Find(cache, p.asset);
    var held := 0;
    if isCollateral {
      if cached.Some? {
        held := cached.value.0;
      } else {
        held :- CollateralBalance(w, l);
      }
    }
    if isCollateral && held > 0 {
      t :- AddCollateral(t, l, held, Find(prices, p.asset), w.oracleToWad, pow);
    }
    var owed := 0;
    if isBorrowing {
      if cached.Some? {
        owed := cached.value.1;
      } else {
        owed :- DebtBalance(w, l);
      }
    }
    if cached == None && (isCollateral || isBorrowing) {
      cache := cache[p.asset := (held, owed)];
    }
    if isBorrowing && owed > 0 {
      t :- AddDebt(t, owed, Find(prices, p.asset), w.oracleToWad, pow);
    }
    return Ok((t, cache));
  }

  /** A scan that fails early keeps its error. */
  lemma {:induction false} ScanFails(w: World, flags: Flags, prices: map<Address, nat>, known: BalanceCache,
                                     positions: seq<Position>, m: nat, n: nat)
    requires m <= n <= |positions| && Scan(w, flags, prices, known, positions, m).Err?
    ensures Scan(w, flags, prices, known, positions, n) == Scan(w, flags, prices, known, positions, m)
    decreases n
  {
    if m < n {
      ScanFails(w, flags, prices, known, positions, m, n - 1);
    }
  }

  method CalculateUserAccountData(w: World, params: Params) returns (r: Result<Answer>)
    ensures r == Unified(w, params)
  {
    hide Visit;
    var flags := FlagsOf(w, params);
    var positions, assets := CollectPositions(w, flags, params.listings, ExtrasOf(params));
    var prices :- ResolvePrices(w, assets, params.prices);
    var t, cache := Sums(0, 0, 0, 0), CacheOf(params);
    for i := 0 to |positions|
      invariant Scan(w, flags, prices, CacheOf(params), positions, i) == Ok((t, cache))
    {
      var next := VisitPosition(w, flags, prices, positions[i], t, cache);
      if next.Err? {
        ScanFails(w, flags, prices, CacheOf(params), positions, i + 1, |positions|);
        return Err(next.error);
      }
      t, cache := next.value.0, next.value.1;
    }
    var account :- Finish(t);
    return Ok(Answer(account, if params.returnPrices then Some(prices) else None, cache, t.thresholds));
  }
}
