/**
 What an account is, position by position: the totals are sums of floored values of displayed balances, and the
 averages, the health factor and what may still be borrowed are the quotients they are meant to be.
 */
module AccountMeaning {
  import opened Common
  import opened RayMath
  import opened Interest
  import opened Tokens
  import opened Reserves
  import opened Liquidations
  import opened Accounts
  import opened AccountCaches

  // ------------------------------------------------------------------ one position

  /** The units of an asset a user holds and owes; an unset flag hides a balance. */
  function Held(w: World, flags: Flags, l: Listing): nat {
    if flags.Collateral(l.id) && l.aToken in w.tokens
    then MulNear(w.tokens[l.aToken].Of(w.user), l.data.liquidityIndex) else 0
  }

  /** Debt is read at the borrow index brought up to now. */
  function Owed(w: World, flags: Flags, l: Listing): nat {
    var index := CurrentBorrowIndex(l.data, w.now);
    if flags.Borrowing(l.id) && l.debtToken in w.tokens && index.Ok?
    then MulNear(w.tokens[l.debtToken].Of(w.user), index.value) else 0
  }

  function Price(w: World, p: Position): nat {
    if p.asset in w.prices then w.prices[p.asset] else 0
  }

  /** Units valued in base currency and weighted, floored once. */
  function Worth(units: nat, price: nat, oracleToWad: nat, weight: nat, decimals: nat): nat {
    Pow10Positive(decimals);
    Quotient(Times(Times(Times(units, price), oracleToWad), weight), Pow10(decimals))
  }

  /** The borrow index a position is read at is the one an update would store. */
  lemma ViewsBorrowIndex(d: Data, now: nat)
    requires Accrue(d, now).Ok?
    ensures CurrentBorrowIndex(d, now) == Ok(Accrue(d, now).value.borrowIndex)
  {
    hide LinearFactor, CompoundFactor;
  }

  lemma WeightOfOne(n: nat, d: nat)
    requires d > 0
    ensures Quotient(Times(n, 1), d) == Quotient(n, d)
  {
  }

  lemma NothingWeighs(price: nat, oracleToWad: nat, weight: nat, decimals: nat)
    ensures Worth(0, price, oracleToWad, weight, decimals) == 0
  {
    Pow10Positive(decimals);
    assert Times(0, price) == 0 && Times(0, oracleToWad) == 0 && Times(0, weight) == 0;
    CompareQuotients(Quotient(0, Pow10(decimals)), 0, Pow10(decimals));
  }

  /** What one turn of the loop adds to each total. */
  lemma TurnAdds(w: World, flags: Flags, p: Position, t: Sums)
    requires PlainVisit(w, flags, p, t).Ok?
    ensures var (next, price, d) := (PlainVisit(w, flags, p, t).value, Price(w, p), p.listing.data.config.decimals);
            var (held, owed) := (Held(w, flags, p.listing), Owed(w, flags, p.listing));
            && next.collateral == t.collateral + Worth(held, price, w.oracleToWad, 1, d)
            && next.debt == t.debt + Worth(owed, price, w.oracleToWad, 1, d)
            && next.thresholds == t.thresholds + Worth(held, price, w.oracleToWad, p.listing.threshold, d)
            && next.ltvs == t.ltvs + Worth(held, price, w.oracleToWad, p.listing.ltv, d)
            && (held > 0 || owed > 0 ==> price > 0)
  {
    hide MulNear, Quotient, Times, Pow10, CurrentBorrowIndex;
    var (price, d) := (Price(w, p), p.listing.data.config.decimals);
    var (held, owed) := (Held(w, flags, p.listing), Owed(w, flags, p.listing));
    NothingWeighs(price, w.oracleToWad, 1, d);
    NothingWeighs(price, w.oracleToWad, p.listing.threshold, d);
    NothingWeighs(price, w.oracleToWad, p.listing.ltv, d);
    Pow10Positive(d);
    WeightOfOne(Times(Times(held, price), w.oracleToWad), Pow10(d));
    WeightOfOne(Times(Times(owed, price), w.oracleToWad), Pow10(d));
  }

  // ------------------------------------------------------------------ all positions

  datatype Column = HeldValue | OwedValue | ThresholdValue | LtvValue

  function Entry(w: World, flags: Flags, p: Position, column: Column): nat {
    var (price, d) := (Price(w, p), p.listing.data.config.decimals);
    match column
    case HeldValue => Worth(Held(w, flags, p.listing), price, w.oracleToWad, 1, d)
    case OwedValue => Worth(Owed(w, flags, p.listing), price, w.oracleToWad, 1, d)
    case ThresholdValue => Worth(Held(w, flags, p.listing), price, w.oracleToWad, p.listing.threshold, d)
    case LtvValue => Worth(Held(w, flags, p.listing), price, w.oracleToWad, p.listing.ltv, d)
  }

  function Total(w: World, flags: Flags, positions: seq<Position>, column: Column, n: nat): nat
    requires n <= |positions|
  {
    if n == 0 then 0
    else Total(w, flags, positions, column, n - 1) + Entry(w, flags, positions[n - 1], column)
  }

  /** The account's sums are the totals of its positions. */
  lemma {:induction false} SumsAreTotals(w: World, flags: Flags, positions: seq<Position>, n: nat)
    requires n <= |positions| && PlainScan(w, flags, positions, n).Ok?
    ensures PlainScan(w, flags, positions, n).value
         == Sums(Total(w, flags, positions, HeldValue, n), Total(w, flags, positions, OwedValue, n),
                 Total(w, flags, positions, ThresholdValue, n), Total(w, flags, positions, LtvValue, n))
  {
    hide PlainVisit, Held, Owed, Price, Worth;
    if n > 0 {
      SumsAreTotals(w, flags, positions, n - 1);
      TurnAdds(w, flags, positions[n - 1], PlainScan(w, flags, positions, n - 1).value);
    }
  }

  // ------------------------------------------------------------------ what the totals say

  lemma NestedFloor(n: nat, d: nat)
    requires d > 0
    ensures var q := Quotient(Quotient(n, BASIS_POINTS), d); q * (BASIS_POINTS * d) <= n < (q + 1) * (BASIS_POINTS * d)
  {
    var x := Quotient(n, BASIS_POINTS);
    var q := Quotient(x, d);
    assert q * (BASIS_POINTS * d) == (q * d) * BASIS_POINTS;
    assert (q + 1) * (BASIS_POINTS * d) == (q * d + d) * BASIS_POINTS;
  }

  /**
   The account of given totals: the threshold is their ceiled average and the loan-to-value the floored one, the
   health factor is collateral times threshold over debt, and what may still be borrowed is what is left under the
   loan-to-value line, to the last unit.
   */
  lemma FinishMeans(t: Sums)
    requires Finish(t).Ok?
    ensures var a := Finish(t).value;
            && a.collateral == t.collateral && a.debt == t.debt
            && (t.collateral == 0 ==> a.threshold == 0 && a.ltv == 0)
            && (t.collateral > 0 ==>
                  && t.thresholds <= a.threshold * t.collateral < t.thresholds + t.collateral
                  && a.ltv * t.collateral <= t.ltvs < a.ltv * t.collateral + t.collateral)
            && (t.debt == 0 ==> a.healthFactor == U128_MAX)
            && (t.debt > 0 ==>
                  a.healthFactor * (BASIS_POINTS * t.debt) <= t.collateral * a.threshold * WAD
                  < (a.healthFactor + 1) * (BASIS_POINTS * t.debt))
            && (a.available > 0 ==> BASIS_POINTS * (t.debt + a.available) <= t.collateral * a.ltv)
            && t.collateral * a.ltv < BASIS_POINTS * (t.debt + a.available + 1)
  {
    var a := Finish(t).value;
    if t.debt > 0 {
      NestedFloor(Times(Times(t.collateral, a.threshold), WAD), t.debt);
    }
  }

  // ------------------------------------------------------------------ what is refused

  /** One oracle call prices at most 64 assets, all of them or none. */
  lemma OracleBatch(w: World, assets: seq<Address>)
    ensures FetchPrices(w, assets).Ok? <==> |assets| <= 64 && forall a :: a in assets ==> a in w.prices
    ensures FetchPrices(w, assets).Ok? ==>
              forall a :: a in assets ==> Find(FetchPrices(w, assets).value, a) == Some(w.prices[a])
  {
  }

  /** Ids of 64 and more have no flags to read, and a position that carries one is refused. */
  lemma BigIdsAreRefused(w: World, flags: Flags, p: Position, t: Sums)
    requires p.listing.id >= 64
    ensures !flags.Any(p.listing.id) && PlainVisit(w, flags, p, t).Err?
  {
  }
}
