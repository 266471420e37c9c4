/**
 The caches of the account computation are transparent. The reference below reads every price,
 reserve and balance afresh; a cached call whose inputs agree with the oracle, the storage and the
 tokens gives the same account, and the balances it returns may be handed to the next call.
 */
module AccountCaches {
  import opened Common
  import opened Tokens
  import opened Reserves
  import opened Accounts

  /** One position read afresh. */
  function PlainVisit(w: World, flags: Flags, p: Position, t: Sums): Result<Sums> {
    AddPosition(t, flags, p.listing, Find(w.prices, p.asset), CollateralBalance(w, p.listing),
                DebtBalance(w, p.listing), w.oracleToWad)
  }

  function PlainScan(w: World, flags: Flags, positions: seq<Position>, n: nat): Result<Sums>
    requires n <= |positions|
  {
    if n == 0 then Ok(Sums(0, 0, 0, 0))
    else
      var t :- PlainScan(w, flags, positions, n - 1);
      PlainVisit(w, flags, positions[n - 1], t)
  }

  function PlainSums(w: World, flags: Flags): Result<Sums> {
    var positions := ActivePositions(w, flags, None);
    PlainScan(w, flags, positions, |positions|)
  }

  // ------------------------------------------------------------------ agreement of what is supplied

  ghost predicate ListingsAgree(w: World, flags: Flags, known: Option<map<Address, Listing>>) {
    known.Some? ==>
      forall id :: flags.Any(id) && id in w.assets && w.assets[id] in known.value ==>
        Find(w.listings, w.assets[id]) == Some(known.value[w.assets[id]])
  }

  ghost predicate PricesAgree(w: World, positions: seq<Position>, known: Option<map<Address, nat>>) {
    known.Some? ==>
      forall p :: p in positions && p.asset in known.value ==> Find(w.prices, p.asset) == Some(known.value[p.asset])
  }

  /** A cached side counts only where its flag is set. */
  ghost predicate EntryAgrees(w: World, flags: Flags, l: Listing, entry: (nat, nat)) {
    && (flags.Collateral(l.id) ==> CollateralBalance(w, l) == Ok(entry.0))
    && (flags.Borrowing(l.id) ==> DebtBalance(w, l) == Ok(entry.1))
  }

  ghost predicate BalancesAgree(w: World, flags: Flags, positions: seq<Position>, cache: BalanceCache) {
    forall p :: p in positions && p.asset in cache ==> EntryAgrees(w, flags, p.listing, cache[p.asset])
  }

  ghost predicate Agrees(w: World, params: Params) {
    var flags := FlagsOf(w, params);
    var positions := ActivePositions(w, flags, None);
    && ListingsAgree(w, flags, params.listings)
    && PricesAgree(w, positions, params.prices)
    && BalancesAgree(w, flags, positions, CacheOf(params))
  }

  /** What a call must still fetch from the oracle. */
  function ToFetch(w: World, params: Params): seq<Address> {
    FetchList(PriceList(ExtrasOf(params), ActivePositions(w, FlagsOf(w, params), None)), params.prices)
  }

  // ------------------------------------------------------------------ positions

  ghost predicate Stored(w: World, positions: seq<Position>) {
    forall p :: p in positions ==> Find(w.listings, p.asset) == Some(p.listing)
  }

  lemma {:induction false} PositionsAreStored(w: World, flags: Flags, n: nat)
    ensures Stored(w, PositionsBelow(w, flags, None, n))
    ensures |PositionsBelow(w, flags, None, n)| <= n
  {
    if n > 0 {
      PositionsAreStored(w, flags, n - 1);
    }
  }

  lemma {:induction false} ListingsTransparent(w: World, flags: Flags, known: Option<map<Address, Listing>>, n: nat)
    requires ListingsAgree(w, flags, known)
    ensures PositionsBelow(w, flags, known, n) == PositionsBelow(w, flags, None, n)
  {
    if n > 0 {
      ListingsTransparent(w, flags, known, n - 1);
    }
  }

  // ------------------------------------------------------------------ prices

  lemma {:induction false} ExtrasAreListed(extras: seq<Address>, positions: seq<Position>, asset: Address)
    requires asset in extras
    ensures asset in PriceList(extras, positions)
    decreases |positions|
  {
    if positions != [] {
      ExtrasAreListed(extras, positions[..|positions| - 1], asset);
    }
  }

  lemma {:induction false} PriceListCovers(extras: seq<Address>, positions: seq<Position>)
    ensures forall p :: p in positions ==> p.asset in PriceList(extras, positions)
    ensures extras == [] ==> |PriceList(extras, positions)| <= |positions|
    decreases |positions|
  {
    if positions != [] {
      var last := |positions| - 1;
      PriceListCovers(extras, positions[..last]);
      forall p | p in positions ensures p.asset in PriceList(extras, positions) {
        if p != positions[last] {
          assert p in positions[..last];
        } else if p.asset in extras {
          ExtrasAreListed(extras, positions[..last], p.asset);
        }
      }
    }
  }

  lemma {:induction false} MissingIsTheRest(assets: seq<Address>, known: map<Address, nat>)
    ensures forall a :: a in Missing(assets, known) <==> a in assets && a !in known
    ensures |Missing(assets, known)| <= |assets|
    decreases |assets|
  {
    if assets != [] {
      var last := |assets| - 1;
      MissingIsTheRest(assets[..last], known);
      assert assets == assets[..last] + [assets[last]];
    }
  }

  /** Whatever mixture of known and fetched prices, every position sees the oracle's. */
  lemma PricesTransparent(w: World, extras: seq<Address>, positions: seq<Position>, known: Option<map<Address, nat>>)
    requires PricesAgree(w, positions, known)
    ensures var assets := PriceList(extras, positions);
            && (PriceMap(w, assets, known).Ok? <==> Fetchable(w, FetchList(assets, known)))
            && (PriceMap(w, assets, known).Ok? ==>
                  forall p :: p in positions ==> Find(PriceMap(w, assets, known).value, p.asset) == Find(w.prices,
                      p.asset))
  {
    var assets := PriceList(extras, positions);
    PriceListCovers(extras, positions);
    if known.Some? {
      MissingIsTheRest(assets, known.value);
    }
  }

  // ------------------------------------------------------------------ balances

  lemma VisitTransparent(w: World, flags: Flags, prices: map<Address, nat>, positions: seq<Position>, p: Position,
                         t: Sums, cache: BalanceCache)
    requires Stored(w, positions) && p in positions
    requires BalancesAgree(w, flags, positions, cache)
    requires Find(prices, p.asset) == Find(w.prices, p.asset)
    ensures Visit(w, flags, prices, p, t, cache).Ok? <==> PlainVisit(w, flags, p, t).Ok?
    ensures Visit(w, flags, prices, p, t, cache).Ok? ==>
              && Visit(w, flags, prices, p, t, cache).value.0 == PlainVisit(w, flags, p, t).value
              && BalancesAgree(w, flags, positions, Visit(w, flags, prices, p, t, cache).value.1)
  {
    hide CollateralBalance, DebtBalance, AddCollateral, AddDebt;
    if p.asset in cache {
      assert EntryAgrees(w, flags, p.listing, cache[p.asset]);
    }
  }

  lemma {:induction false} ScanTransparent(w: World, flags: Flags, prices: map<Address, nat>, known: BalanceCache,
                                           positions: seq<Position>, n: nat)
    requires n <= |positions| && Stored(w, positions)
    requires BalancesAgree(w, flags, positions, known)
    requires forall p :: p in positions ==> Find(prices, p.asset) == Find(w.prices, p.asset)
    ensures Scan(w, flags, prices, known, positions, n).Ok? <==> PlainScan(w, flags, positions, n).Ok?
    ensures Scan(w, flags, prices, known, positions, n).Ok? ==>
              && Scan(w, flags, prices, known, positions, n).value.0 == PlainScan(w, flags, positions, n).value
              && BalancesAgree(w, flags, positions, Scan(w, flags, prices, known, positions, n).value.1)
  {
    hide Visit, PlainVisit, Stored, BalancesAgree;
    if n > 0 {
      ScanTransparent(w, flags, prices, known, positions, n - 1);
      var before := Scan(w, flags, prices, known, positions, n - 1);
      if before.Ok? {
        VisitTransparent(w, flags, prices, positions, positions[n - 1], before.value.0, before.value.1);
      }
    }
  }

  // ------------------------------------------------------------------ the theorems

  /**
   With agreeing caches a call succeeds exactly when the oracle can price what is left to fetch and the
   reference succeeds, and then it returns the reference account, and balances that agree again.
   */
  lemma UnifiedIsPlain(w: World, params: Params)
    requires Agrees(w, params)
    ensures var plain := PlainSums(w, FlagsOf(w, params));
            && (Unified(w, params).Ok? <==>
                  Fetchable(w, ToFetch(w, params)) && plain.Ok? && Finish(plain.value).Ok?)
            && (Unified(w, params).Ok? ==>
                  && Ok(Unified(w, params).value.account) == Finish(plain.value)
                  && Unified(w, params).value.thresholdSum == plain.value.thresholds
                  && BalancesAgree(w, FlagsOf(w, params), ActivePositions(w, FlagsOf(w, params), None),
                                   Unified(w, params).value.balances))
  {
    hide PositionsBelow, PlainScan, Scan, Finish, PriceMap, PriceList, Fetchable, FetchList;
    hide Stored, BalancesAgree, ListingsAgree, PricesAgree;
    var flags := FlagsOf(w, params);
    var positions := ActivePositions(w, flags, None);
    var bound := Min(w.nextId, MAX_RESERVES);
    ListingsTransparent(w, flags, params.listings, bound);
    PositionsAreStored(w, flags, bound);
    var assets := PriceList(ExtrasOf(params), positions);
    PricesTransparent(w, ExtrasOf(params), positions, params.prices);
    var prices := PriceMap(w, assets, params.prices);
    if prices.Ok? {
      ScanTransparent(w, flags, prices.value, CacheOf(params), positions, |positions|);
    }
  }

  function Uncached(params: Params): Params {
    params.(prices := None, listings := None, extras := None, balances := None)
  }

  lemma UncachedAgrees(w: World, params: Params)
    ensures Agrees(w, Uncached(params))
  {
  }

  /**
   Caches are transparent: whenever the uncached call succeeds and the oracle can price what the cached
   one must fetch, the cached one returns the same account and the same weighted sum.
   */
  lemma CachesTransparent(w: World, params: Params)
    requires Agrees(w, params) && Unified(w, Uncached(params)).Ok?
    ensures Unified(w, params).Ok? <==> Fetchable(w, ToFetch(w, params))
    ensures Unified(w, params).Ok? ==>
              && Unified(w, params).value.account == Unified(w, Uncached(params)).value.account
              && Unified(w, params).value.thresholdSum == Unified(w, Uncached(params)).value.thresholdSum
  {
    hide Unified, Agrees, PlainSums, Finish, Fetchable, ToFetch, BalancesAgree;
    UncachedAgrees(w, params);
    UnifiedIsPlain(w, params);
    UnifiedIsPlain(w, Uncached(params));
  }

  /** Without extra assets there is nothing to fetch that the uncached call did not. */
  lemma CachesNeverFailAlone(w: World, params: Params)
    requires Agrees(w, params) && Unified(w, Uncached(params)).Ok? && ExtrasOf(params) == []
    ensures Unified(w, params).Ok?
  {
    hide Unified, Agrees, PlainSums, Finish, PriceList, BalancesAgree;
    UncachedAgrees(w, params);
    UnifiedIsPlain(w, Uncached(params));
    CachesTransparent(w, params);
    var assets := PriceList([], ActivePositions(w, FlagsOf(w, params), None));
    if params.prices.Some? {
      MissingIsTheRest(assets, params.prices.value);
    }
  }

  /** The returned balances, fed back with the same flags and any other agreeing caches, change nothing. */
  lemma BalancesFeedBack(w: World, params: Params, again: Params)
    requires Agrees(w, params) && Unified(w, params).Ok?
    requires FlagsOf(w, again) == FlagsOf(w, params)
    requires Agrees(w, again.(balances := None))
    requires again.balances == Some(Unified(w, params).value.balances)
    ensures Agrees(w, again)
    ensures Unified(w, again).Ok? <==> Fetchable(w, ToFetch(w, again))
    ensures Unified(w, again).Ok? ==>
              && Unified(w, again).value.account == Unified(w, params).value.account
              && Unified(w, again).value.thresholdSum == Unified(w, params).value.thresholdSum
  {
    hide Unified, PlainSums, Finish, Fetchable, ListingsAgree, PricesAgree, BalancesAgree;
    UnifiedIsPlain(w, params);
    assert Agrees(w, again);
    UnifiedIsPlain(w, again);
  }
}
