/**
 The two health checks tied to the calls they guard: in a world that reads the pool's reserves, with the check's
 verdict as the call's `healthOk`, what the router accepts leaves the account healthy.
 */
module PoolHealth {
  import opened Common
  import opened RayMath
  import opened Tokens
  import opened Reserves
  import opened Solvency
  import opened Effects
  import opened Accounts
  import opened AccountCaches
  import opened Health
  import opened Pools
  import opened Lending

  /** The world reads reserve `r` under `id`: its data, both token balances, and the user's two flags. */
  ghost predicate Reads(w: World, id: nat, r: Reserve) {
    && id < w.nextId && id < MAX_RESERVES && id in w.assets && w.assets[id] in w.listings
    && (w.flags.Collateral(id) <==> w.user in r.collateralBits)
    && (w.flags.Borrowing(id) <==> w.user in r.borrowBits)
    && var l := w.listings[w.assets[id]];
       l.id == id && l.data == r.data
       && Find(w.tokens, l.aToken) == Some(r.supply) && Find(w.tokens, l.debtToken) == Some(r.debt)
  }

  /** Such worlds exist: the account world of a pool of two reserves reads both. */
  lemma AccountWorldReads(p: Pool, decimals: nat, now: nat, user: Address, lentPrice: nat, pledgedPrice: nat)
    requires p.Keys == {0, 1}
    ensures var w := AccountWorld(p, decimals, now, user, lentPrice, pledgedPrice);
            Reads(w, 0, p[0]) && Reads(w, 1, p[1]) && Regular(w)
  {
  }

  /** The balance the account computation remembers of a collateral position is the displayed one. */
  lemma RememberedIsShown(w: World, id: nat, r: Reserve)
    requires Reads(w, id, r) && Regular(w) && w.flags.Collateral(id)
    requires Unified(w, WithdrawParams(w, w.assets[id])).Ok?
    requires w.assets[id] in Unified(w, WithdrawParams(w, w.assets[id])).value.balances
    ensures BalanceWithIndex(r.supply, w.user, r.data.liquidityIndex)
         == Ok(Unified(w, WithdrawParams(w, w.assets[id])).value.balances[w.assets[id]].0)
  {
    hide Unified, PositionsBelow, PlainSums, BalanceWithIndex;
    var (asset, params) := (w.assets[id], WithdrawParams(w, w.assets[id]));
    RegularPositions(w, w.flags, Min(w.nextId, MAX_RESERVES));
    assert Agrees(w, params) by {
      UncachedAgrees(w, params);
    }
    UnifiedIsPlain(w, params);
    var p := Position(asset, w.listings[asset]);
    assert p in ActivePositions(w, w.flags, None);
    assert EntryAgrees(w, w.flags, p.listing, Unified(w, params).value.balances[asset]);
  }

  lemma PaidIsShown(r: Reserve, e: Env, user: Address, amount: nat)
    requires WithdrawMove(r, e, user, amount).Ok?
    ensures Accrue(r.data, e.now).Ok? && (user in r.collateralBits ==> e.healthOk)
    ensures var shown := BalanceWithIndex(r.supply, user, Accrue(r.data, e.now).value.liquidityIndex);
            shown.Ok? && 0 < WithdrawMove(r, e, user, amount).value.1 <= shown.value
  {
    hide Accrue, TotalWithIndex, BalanceWithIndex;
  }

  /**
   An accepted withdrawal leaves a healthy account. The world reads the reserve as the call has brought it up to date,
   and `healthOk` is the verdict of the withdrawal check on the amount paid. Then either there is no debt, or the
   account recomputed on the lowered balance has a ratio of at least the minimum, less what one unit of the weighted
   sum is worth.
   */
  lemma AcceptedWithdrawalIsHealthy(w: World, id: nat, r: Reserve, e: Env, amount: nat, minimum: nat)
    requires Sound(r) && Regular(w) && WithdrawMove(r, e, w.user, amount).Ok? && w.user in r.collateralBits
    requires Accrue(r.data, e.now).Ok? && Reads(w, id, r.(data := Accrue(r.data, e.now).value))
    requires var paid := WithdrawMove(r, e, w.user, amount).value.1;
             e.healthOk == ValidateWithdraw(w, w.assets[id], paid, w.listings[w.assets[id]], minimum).Ok?
    ensures e.healthOk && Unified(w, WithdrawParams(w, w.assets[id])).Ok?
    ensures var (asset, paid) := (w.assets[id], WithdrawMove(r, e, w.user, amount).value.1);
            var answer := Unified(w, WithdrawParams(w, asset)).value;
            answer.account.debt > 0 ==>
              && answer.prices.Some? && asset in answer.balances && paid <= answer.balances[asset].0
              && Recompute(w, answer, asset, paid).Ok?
              && var again := Recompute(w, answer, asset, paid).value;
                 && again.debt == answer.account.debt
                 && SumRatio(again.thresholds, again.debt) + Quotient(WAD / BASIS_POINTS, again.debt) + 1 >= minimum
  {
    hide Unified, Accrue, Recompute, SumRatio, Contribution, BalanceWithIndex, ATokenBurn, TotalWithIndex;
    var accrued := r.(data := Accrue(r.data, e.now).value);
    var paid := WithdrawMove(r, e, w.user, amount).value.1;
    PaidIsShown(r, e, w.user, amount);
    WithdrawVerdict(w, id, paid, w.listings[w.assets[id]], minimum);
    WithdrawSumWithinOne(w, id, paid, w.listings[w.assets[id]]);
    RememberedIsShown(w, id, accrued);
  }

  /**
   An accepted borrow leaves a healthy account: with `healthOk` the verdict of the borrow check, the account and the
   loan together have a health factor of at least the minimum, and of at least one if the loan is worth anything.
   */
  lemma AcceptedBorrowIsHealthy(w: World, id: nat, r: Reserve, e: Env, amount: nat, minimum: nat)
    requires BorrowMove(r, e, w.user, amount).Ok? && ThresholdsCoverLtvs(ActivePositions(w, w.flags, None))
    requires Accrue(r.data, e.now).Ok? && Reads(w, id, r.(data := Accrue(r.data, e.now).value))
    requires e.healthOk == ValidateBorrow(w, w.assets[id], amount, w.listings[w.assets[id]], minimum).Ok?
    ensures var s := SimulateBorrow(w, w.assets[id], amount, w.listings[w.assets[id]]);
            && s.Ok? && s.value.value <= s.value.account.available
            && SimulatedHealth(s.value).Ok? && SimulatedHealth(s.value).value >= minimum
            && (s.value.value > 0 ==> SimulatedHealth(s.value).value >= WAD)
  {
    hide SimulateBorrow, SimulatedHealth, ActivePositions, Accrue, TotalWithIndex, DebtMint, CheckBorrowCap;
    LtvTestImpliesHealth(w, w.assets[id], amount, w.listings[w.assets[id]], minimum);
  }
}
