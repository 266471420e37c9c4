/**
 The health check of collateral swaps: one loop over the user's ids that never averages. It keeps only
 the threshold-weighted sum, takes the two swapped reserves and their balances from the caller, and
 refuses an active id without a reserve instead of skipping it.
 */
module SwapHealth {
  import opened Common
  import opened RayMath
  import opened Tokens
  import opened Reserves
  import opened Liquidations
  import opened Accounts
  import opened AccountCaches
  import opened Health

  /** The swap's two reserves as held in memory, and the aToken balances the caller already knows. */
  datatype SwapSide = SwapSide(asset: Address, listing: Listing, known: Option<nat>)

  datatype Swapped = Swapped(from: SwapSide, to: SwapSide, flags: Flags)

  datatype Running = Running(weighted: nat, debt: nat)

  // ------------------------------------------------------------------ the check as a function

  /** Ids other than the two swapped ones, below n, that have an address. */
  function OtherAssets(w: World, s: Swapped, n: nat): seq<Address> {
    if n == 0 then []
    else
      var before := OtherAssets(w, s, n - 1);
      var id := n - 1;
      if s.flags.Any(id) && id != s.from.listing.id && id != s.to.listing.id && id in w.assets
      then before + [w.assets[id]] else before
  }

  /** The reserve and price an active id is valued with. */
  function Resolve(w: World, s: Swapped, prices: map<Address, nat>, id: nat): Result<(Listing, nat)> {
    if id == s.from.listing.id then
      var p :- UsablePrice(Find(prices, s.from.asset));
      Ok((s.from.listing, p))
    else if id == s.to.listing.id then
      var p :- UsablePrice(Find(prices, s.to.asset));
      Ok((s.to.listing, p))
    else if id !in w.assets || w.assets[id] !in w.listings then
      Err(ReserveNotFound)
    else
      var p :- UsablePrice(Find(prices, w.assets[id]));
      Ok((w.listings[w.assets[id]], p))
  }

  function HeldInSwap(w: World, s: Swapped, id: nat, l: Listing): Result<nat> {
    if id == s.from.listing.id && s.from.known.Some? then FitSigned(s.from.known.value)
    else if id == s.to.listing.id && s.to.known.Some? then FitSigned(s.to.known.value)
    else CollateralBalance(w, l)
  }

  /** A clock behind the last update reads the stored index here. */
  function OwedInSwap(w: World, l: Listing): Result<nat> {
    var index :- if w.now <= l.data.lastUpdate then Ok(l.data.borrowIndex) else CurrentBorrowIndex(l.data, w.now);
    if l.debtToken !in w.tokens then Err(TokenCallFailed)
    else OrElse(BalanceWithIndex(w.tokens[l.debtToken], w.user, index), TokenCallFailed)
  }

  function AddWeighted(t: Running, l: Listing, held: nat, price: nat, oracleToWad: nat, pow: nat): Result<Running>
    requires pow > 0
  {
    var value :- WeightedValue(held, price, oracleToWad, l.threshold, pow);
    var weighted :- Fit(t.weighted + value);
    Ok(t.(weighted := weighted))
  }

  function AddOwed(t: Running, owed: nat, price: nat, oracleToWad: nat, pow: nat): Result<Running>
    requires pow > 0
  {
    var value :- ValueInBase(owed, price, oracleToWad, pow);
    var debt :- Fit(t.debt + value);
    Ok(t.(debt := debt))
  }

  function Turn(w: World, s: Swapped, prices: map<Address, nat>, id: nat, t: Running): Result<Running> {
    if !s.flags.Any(id) then Ok(t)
    else
      var (l, price) :- Resolve(w, s, prices, id);
      var pow :- DecimalsPow(l.data);
      var held :- if s.flags.Collateral(id) then HeldInSwap(w, s, id, l) else Ok(0);
      var t :- if held > 0 then AddWeighted(t, l, held, price, w.oracleToWad, pow) else Ok(t);
      var owed :- if s.flags.Borrowing(id) then OwedInSwap(w, l) else Ok(0);
      if owed > 0 then AddOwed(t, owed, price, w.oracleToWad, pow) else Ok(t)
  }

  function Turns(w: World, s: Swapped, prices: map<Address, nat>, n: nat): Result<Running> {
    if n == 0 then Ok(Running(0, 0))
    else
      var t :- Turns(w, s, prices, n - 1);
      Turn(w, s, prices, n - 1, t)
  }

  function Verdict(t: Running): Result<()> {
    if t.debt == 0 then Ok(())
    else
      var ratio :- Fit(Quotient(Quotient(Times(t.weighted, WAD), BASIS_POINTS), t.debt));
      Need(ratio >= WAD, InvalidLiquidation)
  }

  predicate HasAnyBorrowing(flags: Flags) {
    exists id :: id in flags.borrowing && flags.Borrowing(id)
  }

  function Bound(w: World): nat {
    Min(w.nextId, MAX_RESERVES)
  }

  function ValidateSwap(w: World, s: Swapped): Result<()> {
    if !HasAnyBorrowing(s.flags) then
      var prices :- FetchPrices(w, [s.to.asset]);
      var _ :- UsablePrice(Find(prices, s.to.asset));
      Ok(())
    else
      var _ :- Need(s.from.listing.id < MAX_RESERVES && s.to.listing.id < MAX_RESERVES, MathOverflow);
      var prices :- FetchPrices(w, [s.from.asset, s.to.asset] + OtherAssets(w, s, Bound(w)));
      var _ :- UsablePrice(Find(prices, s.from.asset));
      var _ :- UsablePrice(Find(prices, s.to.asset));
      var _ :- DecimalsPow(s.from.listing.data);
      var _ :- DecimalsPow(s.to.listing.data);
      var t :- Turns(w, s, prices, Bound(w));
      Verdict(t)
  }

  // ------------------------------------------------------------------ the two loops

  method CollectOthers(w: World, s: Swapped) returns (assets: seq<Address>)
    ensures assets == [s.from.asset, s.to.asset] + OtherAssets(w, s, Bound(w))
  {
    assets := [s.from.asset, s.to.asset];
    for id := 0 to Bound(w)
      invariant assets == [s.from.asset, s.to.asset] + OtherAssets(w, s, id)
    {
      if s.flags.Collateral(id) || s.flags.Borrowing(id) {
        if id != s.from.listing.id && id != s.to.listing.id {
          if id in w.assets {
            assets := assets + [w.assets[id]];
          }
        }
      }
    }
  }

  method TakeTurn(w: World, s: Swapped, prices: map<Address, nat>, id: nat, t0: Running) returns (r: Result<Running>)
    ensures r == Turn(w, s, prices, id, t0)
  {
    hide Resolve, HeldInSwap, OwedInSwap, AddWeighted, AddOwed, DecimalsPow;
    var t := t0;
    var isCollateral := s.flags.Collateral(id);
    var isBorrowing := s.flags.Borrowing(id);
    if !isCollateral && !isBorrowing {
      return Ok(t);
    }
    var resolved :- Resolve(w, s, prices, id);
    var (l, price) := resolved;
    var pow :- DecimalsPow(l.data);
    if isCollateral {
      var held :- HeldInSwap(w, s, id, l);
      if held > 0 {
        t :- AddWeighted(t, l, held, price, w.oracleToWad, pow);
      }
    }
    if isBorrowing {
      var owed :- OwedInSwap(w, l);
      if owed > 0 {
        t :- AddOwed(t, owed, price, w.oracleToWad, pow);
      }
    }
    return Ok(t);
  }

  lemma {:induction false} TurnsFail(w: World, s: Swapped, prices: map<Address, nat>, m: nat, n: nat)
    requires m <= n && Turns(w, s, prices, m).Err?
    ensures Turns(w, s, prices, n) == Turns(w, s, prices, m)
    decreases n
  {
    if m < n {
      TurnsFail(w, s, prices, m, n - 1);
    }
  }

  method ValidateSwapHealthFactor(w: World, s: Swapped) returns (r: Result<()>)
    ensures r == ValidateSwap(w, s)
  {
    hide Turn;
    if !HasAnyBorrowing(s.flags) {
      var prices :- FetchPrices(w, [s.to.asset]);
      var _ :- UsablePrice(Find(prices, s.to.asset));
      return Ok(());
    }
    var _ :- Need(s.from.listing.id < MAX_RESERVES && s.to.listing.id < MAX_RESERVES, MathOverflow);
    var assets := CollectOthers(w, s);
    var prices :- FetchPrices(w, assets);
    var _ :- UsablePrice(Find(prices, s.from.asset));
    var _ :- UsablePrice(Find(prices, s.to.asset));
    var _ :- DecimalsPow(s.from.listing.data);
    var _ :- DecimalsPow(s.to.listing.data);
    var t := Running(0, 0);
    for id := 0 to Bound(w)
      invariant Turns(w, s, prices, id) == Ok(t)
    {
      var next := TakeTurn(w, s, prices, id, t);
      if next.Err? {
        TurnsFail(w, s, prices, id + 1, Bound(w));
        return Err(next.error);
      }
      t := next.value;
    }
    r := Verdict(t);
  }

  // ------------------------------------------------------------------ against the account computation

  /** What the caller holds in memory is what the world holds: the two reserves and the known balances. */
  ghost predicate SideAgrees(w: World, side: SwapSide) {
    && side.listing.id in w.assets && w.assets[side.listing.id] == side.asset
    && Find(w.listings, side.asset) == Some(side.listing)
    && (side.known.Some? ==> CollateralBalance(w, side.listing) == Ok(side.known.value))
  }

  ghost predicate SwapAgrees(w: World, s: Swapped) {
    Regular(w) && SideAgrees(w, s.from) && SideAgrees(w, s.to)
  }

  lemma {:induction false} PlainScanPrefix(w: World, flags: Flags, positions: seq<Position>, last: Position, n: nat)
    requires n <= |positions|
    ensures PlainScan(w, flags, positions + [last], n) == PlainScan(w, flags, positions, n)
  {
    if n > 0 {
      PlainScanPrefix(w, flags, positions, last, n - 1);
    }
  }

  lemma OwedAgrees(w: World, l: Listing)
    ensures OwedInSwap(w, l).Ok? && DebtBalance(w, l).Ok? ==> OwedInSwap(w, l) == DebtBalance(w, l)
  {
    hide BalanceWithIndex;
  }

  lemma HeldAgrees(w: World, s: Swapped, id: nat, l: Listing)
    requires SwapAgrees(w, s) && Find(w.assets, id).Some? && Find(w.listings, w.assets[id]) == Some(l)
    ensures HeldInSwap(w, s, id, l).Ok? && CollateralBalance(w, l).Ok? ==>
              HeldInSwap(w, s, id, l) == CollateralBalance(w, l)
  {
    hide BalanceWithIndex;
  }

  /** Both sums of one id, read the inline way and the account's way. */
  lemma TurnIsVisit(w: World, s: Swapped, prices: map<Address, nat>, id: nat, t: Running, u: Sums)
    requires SwapAgrees(w, s) && s.flags.Any(id)
    requires forall a :: a in prices ==> Find(w.prices, a) == Some(prices[a])
    requires t == Running(u.thresholds, u.debt)
    requires Turn(w, s, prices, id, t).Ok?
    ensures id in w.assets && w.assets[id] in w.listings
    ensures var next := PlainVisit(w, s.flags, Position(w.assets[id], w.listings[w.assets[id]]), u);
            next.Ok? ==> Turn(w, s, prices, id, t).value == Running(next.value.thresholds, next.value.debt)
  {
    hide WeightedValue, ValueInBase, DecimalsPow, BalanceWithIndex, CurrentBorrowIndex;
    assert w.listings[w.assets[id]].id == id;
    var l := w.listings[w.assets[id]];
    assert Resolve(w, s, prices, id).value.0 == l;
    HeldAgrees(w, s, id, l);
    OwedAgrees(w, l);
  }

  /** The inline loop never skips an active id. */
  lemma TurnNeedsReserve(w: World, s: Swapped, prices: map<Address, nat>, id: nat, t: Running)
    requires SwapAgrees(w, s) && s.flags.Any(id) && Turn(w, s, prices, id, t).Ok?
    ensures id in w.assets && w.assets[id] in w.listings
  {
  }

  lemma IdleTurn(w: World, s: Swapped, prices: map<Address, nat>, id: nat, t: Running)
    requires !s.flags.Any(id)
    ensures Turn(w, s, prices, id, t) == Ok(t)
  {
  }

  lemma {:induction false} TurnsAreScan(w: World, s: Swapped, prices: map<Address, nat>, n: nat)
    requires SwapAgrees(w, s)
    requires forall a :: a in prices ==> Find(w.prices, a) == Some(prices[a])
    requires Turns(w, s, prices, n).Ok?
    ensures var positions := PositionsBelow(w, s.flags, None, n);
            var plain := PlainScan(w, s.flags, positions, |positions|);
            plain.Ok? ==> Turns(w, s, prices, n).value == Running(plain.value.thresholds, plain.value.debt)
  {
    hide Turn, PlainVisit, SwapAgrees;
    if n > 0 {
      TurnsAreScan(w, s, prices, n - 1);
      var t := Turns(w, s, prices, n - 1).value;
      var before := PositionsBelow(w, s.flags, None, n - 1);
      if s.flags.Any(n - 1) {
        TurnNeedsReserve(w, s, prices, n - 1, t);
        var last := Position(w.assets[n - 1], w.listings[w.assets[n - 1]]);
        PlainScanPrefix(w, s.flags, before, last, |before|);
        var u := PlainScan(w, s.flags, before, |before|);
        if u.Ok? {
          TurnIsVisit(w, s, prices, n - 1, t, u.value);
        }
      } else {
        IdleTurn(w, s, prices, n - 1, t);
      }
    }
  }

  /**
   The inline check against the account computation, on the same reserves, prices and balances: what it
   accepts has a health factor of one or more exactly when the collateral is worth anything at all.
   */
  lemma SwapCheckIsHealth(w: World, s: Swapped)
    requires SwapAgrees(w, s) && HasAnyBorrowing(s.flags) && ValidateSwap(w, s).Ok?
    requires PlainSums(w, s.flags).Ok? && Finish(PlainSums(w, s.flags).value).Ok?
    ensures var t := PlainSums(w, s.flags).value;
            t.debt > 0 ==> (Finish(t).value.healthFactor >= WAD <==> t.collateral > 0)
  {
    hide SwapAgrees, PositionsBelow, PlainScan, Turns;
    var prices := FetchPrices(w, [s.from.asset, s.to.asset] + OtherAssets(w, s, Bound(w))).value;
    TurnsAreScan(w, s, prices, Bound(w));
    var t := PlainSums(w, s.flags).value;
    if t.debt > 0 {
      ScaledRatioAtLeastOne(t.thresholds, t.debt);
      var threshold := CeilingAverage(t.thresholds, t.collateral).value;
      ScaledRatioAtLeastOne(Times(t.collateral, threshold), t.debt);
      if t.collateral > 0 {
        AveragesOrdered(t.thresholds, t.thresholds, t.collateral);
      } else {
        assert Times(t.collateral, threshold) == 0;
      }
    }
  }

  // ------------------------------------------------------------------ what is accepted

  function PricedAssets(w: World, s: Swapped): seq<Address> {
    [s.from.asset, s.to.asset] + OtherAssets(w, s, Bound(w))
  }

  /** What the loop needs before it adds anything up: every price in one batch, and a reserve for every active id. */
  ghost predicate Priced(w: World, s: Swapped) {
    && s.from.listing.id < MAX_RESERVES && s.to.listing.id < MAX_RESERVES
    && DecimalsPow(s.from.listing.data).Ok? && DecimalsPow(s.to.listing.data).Ok?
    && |PricedAssets(w, s)| <= 64
    && (forall a :: a in PricedAssets(w, s) ==> a in w.prices && w.prices[a] > 0)
    && (forall id :: 0 <= id < Bound(w) && s.flags.Any(id) ==> id in w.assets && w.assets[id] in w.listings)
  }

  lemma {:induction false} OthersArePriced(w: World, s: Swapped, id: nat, n: nat)
    requires id < n && s.flags.Any(id) && id in w.assets && id != s.from.listing.id && id != s.to.listing.id
    ensures w.assets[id] in OtherAssets(w, s, n)
  {
    if id < n - 1 {
      OthersArePriced(w, s, id, n - 1);
    }
  }

  lemma {:induction false} OthersAreActive(w: World, s: Swapped, n: nat, a: Address)
    requires a in OtherAssets(w, s, n)
    ensures exists id :: 0 <= id < n && s.flags.Any(id) && id != s.from.listing.id && id != s.to.listing.id
                         && id in w.assets && w.assets[id] == a
  {
    if a in OtherAssets(w, s, n - 1) {
      OthersAreActive(w, s, n - 1, a);
    }
  }

  lemma CurrentOrStored(d: Data, now: nat)
    ensures CurrentBorrowIndex(d, now).Ok? ==> now >= d.lastUpdate
    ensures CurrentBorrowIndex(d, now).Ok? && now <= d.lastUpdate ==> CurrentBorrowIndex(d, now).value == d.borrowIndex
  {
  }

  /** A turn that the account computation can value goes through. */
  lemma TurnGoesThrough(w: World, s: Swapped, prices: map<Address, nat>, id: nat, t: Running, u: Sums)
    requires SwapAgrees(w, s) && s.flags.Any(id) && t == Running(u.thresholds, u.debt)
    requires id in w.assets && w.assets[id] in w.listings
    requires w.assets[id] in prices && prices[w.assets[id]] > 0
    requires Find(w.prices, w.assets[id]) == Some(prices[w.assets[id]])
    requires PlainVisit(w, s.flags, Position(w.assets[id], w.listings[w.assets[id]]), u).Ok?
    ensures Turn(w, s, prices, id, t).Ok?
  {
    hide WeightedValue, ValueInBase, DecimalsPow, MulNear, CurrentBorrowIndex;
    var l := w.listings[w.assets[id]];
    CurrentOrStored(l.data, w.now);
    assert l.id == id;
    assert Resolve(w, s, prices, id) == Ok((l, prices[w.assets[id]]));
    assert CollateralBalance(w, l).Ok? ==> HeldInSwap(w, s, id, l) == CollateralBalance(w, l);
    assert DebtBalance(w, l).Ok? ==> OwedInSwap(w, l) == DebtBalance(w, l);
  }

  lemma ActiveIsPriced(w: World, s: Swapped, id: nat)
    requires SwapAgrees(w, s) && Priced(w, s) && id < Bound(w) && s.flags.Any(id)
    ensures id in w.assets && w.assets[id] in w.listings && w.assets[id] in PricedAssets(w, s)
  {
    if id != s.from.listing.id && id != s.to.listing.id {
      OthersArePriced(w, s, id, Bound(w));
    }
  }

  /** And so does the whole loop, whatever prefix of the ids it has visited. */
  lemma {:induction false} TurnsGoThrough(w: World, s: Swapped, prices: map<Address, nat>, n: nat)
    requires SwapAgrees(w, s) && Priced(w, s) && FetchPrices(w, PricedAssets(w, s)) == Ok(prices) && n <= Bound(w)
    requires var positions := PositionsBelow(w, s.flags, None, n); PlainScan(w, s.flags, positions, |positions|).Ok?
    ensures Turns(w, s, prices, n).Ok?
  {
    hide Turn, PlainVisit, SwapAgrees, OtherAssets, DecimalsPow;
    if n > 0 {
      var before := PositionsBelow(w, s.flags, None, n - 1);
      if s.flags.Any(n - 1) {
        ActiveIsPriced(w, s, n - 1);
        var last := Position(w.assets[n - 1], w.listings[w.assets[n - 1]]);
        PlainScanPrefix(w, s.flags, before, last, |before|);
        TurnsGoThrough(w, s, prices, n - 1);
        TurnsAreScan(w, s, prices, n - 1);
        TurnGoesThrough(w, s, prices, n - 1, Turns(w, s, prices, n - 1).value,
                        PlainScan(w, s.flags, before, |before|).value);
      } else {
        TurnsGoThrough(w, s, prices, n - 1);
        IdleTurn(w, s, prices, n - 1, Turns(w, s, prices, n - 1).value);
      }
    }
  }

  lemma {:induction false} TurnsNeedReserves(w: World, s: Swapped, prices: map<Address, nat>, id: nat, n: nat)
    requires SwapAgrees(w, s) && Turns(w, s, prices, n).Ok? && id < n && s.flags.Any(id)
    ensures id in w.assets && w.assets[id] in w.listings
    ensures w.assets[id] in prices && prices[w.assets[id]] > 0
  {
    if id < n - 1 {
      TurnsNeedReserves(w, s, prices, id, n - 1);
    }
  }

  /** Nothing unpriced, unlisted or out of range is swapped against a debt. */
  lemma AcceptedIsPriced(w: World, s: Swapped)
    requires SwapAgrees(w, s) && HasAnyBorrowing(s.flags) && ValidateSwap(w, s).Ok?
    ensures Priced(w, s)
  {
    hide Turns, DecimalsPow, HasAnyBorrowing;
    var prices := FetchPrices(w, PricedAssets(w, s)).value;
    forall id | 0 <= id < Bound(w) && s.flags.Any(id) ensures id in w.assets && w.assets[id] in w.listings {
      TurnsNeedReserves(w, s, prices, id, Bound(w));
    }
    forall a | a in PricedAssets(w, s) ensures a in w.prices && w.prices[a] > 0 {
      if a != s.from.asset && a != s.to.asset {
        OthersAreActive(w, s, Bound(w), a);
        var id :| 0 <= id < Bound(w) && s.flags.Any(id) && id in w.assets && w.assets[id] == a;
        TurnsNeedReserves(w, s, prices, id, Bound(w));
      }
    }
  }

  /**
   What the check decides, for every account that can be valued: an indebted swap is accepted exactly when everything is
   priced and the weighted collateral covers the debt, by no more than a ratio can hold.
   */
  lemma SwapVerdict(w: World, s: Swapped)
    requires SwapAgrees(w, s) && HasAnyBorrowing(s.flags) && PlainSums(w, s.flags).Ok?
    ensures var t := PlainSums(w, s.flags).value;
            ValidateSwap(w, s).Ok? <==>
              && Priced(w, s)
              && (t.debt > 0 ==>
                    t.thresholds >= Times(BASIS_POINTS, t.debt) && SumRatio(t.thresholds, t.debt) <= U128_MAX)
  {
    hide SwapAgrees, PositionsBelow, PlainScan, Turns, HasAnyBorrowing, DecimalsPow;
    if ValidateSwap(w, s).Ok? {
      AcceptedIsPriced(w, s);
    }
    if Priced(w, s) {
      var prices := FetchPrices(w, PricedAssets(w, s)).value;
      TurnsGoThrough(w, s, prices, Bound(w));
      TurnsAreScan(w, s, prices, Bound(w));
      var t := PlainSums(w, s.flags).value;
      if t.debt > 0 {
        ScaledRatioAtLeastOne(t.thresholds, t.debt);
      }
    }
  }

  /** Without a debt the check only wants a price for what is bought. */
  lemma DebtlessSwap(w: World, s: Swapped)
    requires !HasAnyBorrowing(s.flags)
    ensures ValidateSwap(w, s).Ok? <==> s.to.asset in w.prices && w.prices[s.to.asset] > 0
  {
    hide HasAnyBorrowing;
  }

  // ------------------------------------------------------------------ dust

  function DustData(): Data {
    Data(RAY, RAY, 0, 0, 0, Config(true, false, false, true, 1, 0, 0, 0, 0, 0, 0))
  }

  function DustListing(id: nat): Listing {
    Listing(id, 9_000, 9_500, 20 + id, 30 + id, DustData())
  }

  /** Two collateral positions of nine units each, worth nothing once floored, and a debt of one. */
  function DustWorld(): World {
    var nine := Scaled(map[7 := 9], 9);
    World(0, 7, Flags({0, 1}, {2}), 3, map[0 := 10, 1 := 11, 2 := 12],
          map[10 := DustListing(0), 11 := DustListing(1), 12 := DustListing(2)],
          map[20 := nine, 21 := nine, 32 := Scaled(map[7 := 10], 10)], map[10 := 1, 11 := 1, 12 := 1], 1)
  }

  function DustSwap(): Swapped {
    Swapped(SwapSide(10, DustListing(0), Some(9)), SwapSide(11, DustListing(1), Some(9)), DustWorld().flags)
  }

  lemma QuotientIs(n: nat, d: nat, q: nat)
    requires d > 0 && q * d <= n < q * d + d
    ensures Quotient(n, d) == q
  {
    CompareQuotients(Quotient(n, d), q, d);
    CompareQuotients(q, Quotient(n, d), d);
  }

  lemma MulNearByRayIs(n: nat)
    requires n <= 10
    ensures MulNear(n, RAY) == n
  {
  }

  lemma DustBalances()
    ensures var w := DustWorld();
            && CollateralBalance(w, DustListing(0)) == Ok(9) && CollateralBalance(w, DustListing(1)) == Ok(9)
            && DebtBalance(w, DustListing(2)) == Ok(10) && OwedInSwap(w, DustListing(2)) == Ok(10)
            && DecimalsPow(DustData()) == Ok(10)
  {
    MulNearByRayIs(9);
    MulNearByRayIs(10);
    assert Pow10(1) == 10;
  }

  lemma DustValues()
    ensures ValueInBase(9, 1, 1, 10) == Ok(0) && ValueInBase(10, 1, 1, 10) == Ok(1)
    ensures WeightedValue(9, 1, 1, 9_500, 10) == Ok(8_550) && WeightedValue(9, 1, 1, 9_000, 10) == Ok(8_100)
  {
    QuotientIs(9, 10, 0);
    QuotientIs(10, 10, 1);
    QuotientIs(85_500, 10, 8_550);
    QuotientIs(81_000, 10, 8_100);
    assert Times(Times(9, 1), 1) == 9 && Times(Times(10, 1), 1) == 10;
    assert Times(9, 9_500) == 85_500 && Times(9, 9_000) == 81_000;
  }

  lemma DustTurns(prices: map<Address, nat>)
    requires Find(prices, 10) == Some(1) && Find(prices, 11) == Some(1) && Find(prices, 12) == Some(1)
    ensures Turns(DustWorld(), DustSwap(), prices, 3) == Ok(Running(17_100, 1))
  {
    hide ValueInBase, WeightedValue, DecimalsPow, CollateralBalance, OwedInSwap;
    var (w, s) := (DustWorld(), DustSwap());
    DustBalances();
    DustValues();
    assert Turn(w, s, prices, 0, Running(0, 0)) == Ok(Running(8_550, 0));
    assert Turn(w, s, prices, 1, Running(8_550, 0)) == Ok(Running(17_100, 0));
    assert Turn(w, s, prices, 2, Running(17_100, 0)) == Ok(Running(17_100, 1));
    assert Turns(w, s, prices, 1) == Ok(Running(8_550, 0));
    assert Turns(w, s, prices, 2) == Ok(Running(17_100, 0));
  }

  lemma DustSums()
    ensures PlainSums(DustWorld(), DustWorld().flags) == Ok(Sums(0, 1, 17_100, 16_200))
  {
    hide ValueInBase, WeightedValue, DecimalsPow, CollateralBalance, DebtBalance;
    var w := DustWorld();
    var (p0, p1, p2) := (Position(10, DustListing(0)), Position(11, DustListing(1)), Position(12, DustListing(2)));
    DustBalances();
    DustValues();
    assert PositionsBelow(w, w.flags, None, 1) == [p0];
    assert PositionsBelow(w, w.flags, None, 2) == [p0, p1];
    assert PositionsBelow(w, w.flags, None, 3) == [p0, p1, p2];
    var ps := [p0, p1, p2];
    assert PlainVisit(w, w.flags, p0, Sums(0, 0, 0, 0)) == Ok(Sums(0, 0, 8_550, 8_100));
    assert PlainVisit(w, w.flags, p1, Sums(0, 0, 8_550, 8_100)) == Ok(Sums(0, 0, 17_100, 16_200));
    assert PlainVisit(w, w.flags, p2, Sums(0, 0, 17_100, 16_200)) == Ok(Sums(0, 1, 17_100, 16_200));
    assert PlainScan(w, w.flags, ps, 1) == Ok(Sums(0, 0, 8_550, 8_100));
    assert PlainScan(w, w.flags, ps, 2) == Ok(Sums(0, 0, 17_100, 16_200));
  }

  lemma DustRatio()
    ensures Fit(Quotient(Quotient(Times(17_100, WAD), BASIS_POINTS), 1)).Ok?
  {
    QuotientIs(Times(17_100, WAD), BASIS_POINTS, 1_710_000_000_000_000_000);
    QuotientIs(1_710_000_000_000_000_000, 1, 1_710_000_000_000_000_000);
  }

  lemma DustPasses()
    ensures ValidateSwap(DustWorld(), DustSwap()) == Ok(())
  {
    hide Turns, DecimalsPow;
    var (w, s) := (DustWorld(), DustSwap());
    DustBalances();
    assert HasAnyBorrowing(s.flags) by {
      assert 2 in s.flags.borrowing && s.flags.Borrowing(2);
    }
    assert OtherAssets(w, s, 1) == [] && OtherAssets(w, s, 2) == [];
    assert [10, 11] + OtherAssets(w, s, 3) == [10, 11, 12];
    DustTurns(FetchPrices(w, [10, 11, 12]).value);
    assert Verdict(Running(17_100, 1)) == Ok(()) by {
      DustRatio();
      ScaledRatioAtLeastOne(17_100, 1);
    }
  }

  lemma DustAgrees()
    ensures SwapAgrees(DustWorld(), DustSwap())
  {
    hide CollateralBalance;
    DustBalances();
  }

  lemma DustFinishes()
    ensures Finish(Sums(0, 1, 17_100, 16_200)) == Ok(AccountData(0, 1, 0, 0, 0, 0))
  {
    QuotientIs(0, BASIS_POINTS, 0);
    QuotientIs(0, 1, 0);
    assert Times(Times(0, 0), WAD) == 0;
  }

  /** The exception is real: dust in two reserves passes the inline check and has a health factor of zero. */
  lemma DustIsAccepted()
    ensures SwapAgrees(DustWorld(), DustSwap()) && ValidateSwap(DustWorld(), DustSwap()) == Ok(())
    ensures PlainSums(DustWorld(), DustWorld().flags).Ok?
    ensures Finish(PlainSums(DustWorld(), DustWorld().flags).value) == Ok(AccountData(0, 1, 0, 0, 0, 0))
  {
    hide PlainSums, ValidateSwap, SwapAgrees, Finish, DustWorld, DustSwap;
    DustAgrees();
    DustPasses();
    DustSums();
    DustFinishes();
  }
}
