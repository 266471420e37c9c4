/**
 Flash loans over a list of assets: every starting balance is read, then everything is lent, then the
 receiver runs, then each repayment is checked and its premium paid. Assets may repeat, and the receiver
 may do anything to any balance.
 */
module FlashLoans {
  import opened Common
  import opened RayMath
  import opened Totals

  const MAX_LOANS: nat := 64

  /** Underlying balances by asset and holder. */
  type Ledger = map<(Address, Address), nat>

  function Balance(l: Ledger, asset: Address, holder: Address): nat {
    Get(l, (asset, holder))
  }

  datatype FlashReserve = FlashReserve(aToken: Address, flashEnabled: bool, active: bool, paused: bool)

  type Listings = map<Address, FlashReserve>

  /** What is owed for one entry of the list. */
  datatype Debt = Debt(asset: Address, aToken: Address, owed: nat, premium: nat, initial: nat)

  /** Pool settings for one call, and the reserve a caller may have read already, used for entry zero. */
  datatype Terms = Terms(bps: nat, charged: bool, treasury: Option<Address>, prefetched: Option<FlashReserve>)

  /** Everything the receiver's code may leave behind. */
  datatype Aftermath = Aftermath(success: bool, ledger: Ledger, listings: Listings)

  // ------------------------------------------------------------------ one entry

  /** The aToken sends underlying: a positive signed amount it holds. */
  function Send(l: Ledger, asset: Address, from: Address, to: Address, amount: nat): Result<Ledger> {
    var _ :- Need(amount > 0, InvalidAmount);
    var _ :- FitSigned(amount);
    var _ :- Need(Balance(l, asset, from) >= amount, InsufficientBalance);
    var debited := l[(asset, from) := Balance(l, asset, from) - amount];
    var credit :- FitSigned(Balance(debited, asset, to) + amount);
    Ok(debited[(asset, to) := credit])
  }

  function ReserveFor(listings: Listings, t: Terms, asset: Address, i: nat): Result<FlashReserve> {
    if i == 0 && t.prefetched.Some? then Ok(t.prefetched.value)
    else if asset in listings then Ok(listings[asset])
    else Err(ReserveNotFound)
  }

  function PlanOne(l: Ledger, listings: Listings, t: Terms, asset: Address, amount: nat, i: nat): Result<Debt> {
    var _ :- Need(amount > 0, InvalidAmount);
    var r :- ReserveFor(listings, t, asset, i);
    var _ :- Need(r.flashEnabled, FlashLoanNotAuthorized);
    var _ :- Need(r.active, AssetNotActive);
    var _ :- Need(!r.paused, AssetPaused);
    var premium :- if t.charged then PercentMulUp(amount, t.bps) else Ok(0);
    var _ :- Need(Balance(l, asset, r.aToken) >= amount, InsufficientLiquidity);
    var owed :- Fit(amount + premium);
    Ok(Debt(asset, r.aToken, owed, premium, Balance(l, asset, r.aToken)))
  }

  /** The check reads the balance now, so an earlier premium of the same asset has already left. */
  function SettleOne(l: Ledger, listings: Listings, t: Terms, treasury: Address, d: Debt, i: nat): Result<Ledger> {
    var r :- ReserveFor(listings, t, d.asset, i);
    var expected :- Fit(d.initial + d.premium);
    var _ :- Need(Balance(l, d.asset, r.aToken) >= expected, FlashLoanNotRepaid);
    if d.premium == 0 then Ok(l)
    else
      var sent := Send(l, d.asset, r.aToken, treasury, d.premium);
      if sent.Ok? then sent else Err(ExternalCallFailed)
  }

  function LendOne(l: Ledger, receiver: Address, d: Debt, amount: nat): Result<Ledger> {
    var sent := Send(l, d.asset, d.aToken, receiver, amount);
    if sent.Ok? then sent else Err(ExternalCallFailed)
  }

  // ------------------------------------------------------------------ the list

  function PlanAll(l: Ledger, listings: Listings, t: Terms, assets: seq<Address>, amounts: seq<nat>, n: nat)
    : Result<seq<Debt>>
    requires n <= |assets| == |amounts|
  {
    if n == 0 then Ok([])
    else
      var before :- PlanAll(l, listings, t, assets, amounts, n - 1);
      var d :- PlanOne(l, listings, t, assets[n - 1], amounts[n - 1], n - 1);
      Ok(before + [d])
  }

  function LendAll(l: Ledger, receiver: Address, debts: seq<Debt>, amounts: seq<nat>, n: nat): Result<Ledger>
    requires n <= |debts| <= |amounts|
  {
    if n == 0 then Ok(l)
    else
      var before :- LendAll(l, receiver, debts, amounts, n - 1);
      LendOne(before, receiver, debts[n - 1], amounts[n - 1])
  }

  function SettleAll(l: Ledger, listings: Listings, t: Terms, treasury: Address, debts: seq<Debt>,
      n: nat): Result<Ledger>
    requires n <= |debts|
  {
    if n == 0 then Ok(l)
    else
      var before :- SettleAll(l, listings, t, treasury, debts, n - 1);
      SettleOne(before, listings, t, treasury, debts[n - 1], n - 1)
  }

  lemma {:induction false} PlanLength(l: Ledger, listings: Listings, t: Terms, assets: seq<Address>,
      amounts: seq<nat>, n: nat)
    requires n <= |assets| == |amounts| && PlanAll(l, listings, t, assets, amounts, n).Ok?
    ensures |PlanAll(l, listings, t, assets, amounts, n).value| == n
  {
    if n > 0 {
      PlanLength(l, listings, t, assets, amounts, n - 1);
    }
  }

  /** A completed loan: where it started settling, and where it ended. */
  datatype Completed = Completed(debts: seq<Debt>, aftermath: Aftermath, ledger: Ledger)

  function FlashLoan(l: Ledger, listings: Listings, t: Terms, receiver: Address, assets: seq<Address>,
                     amounts: seq<nat>, run: (Ledger, seq<Debt>) -> Aftermath): Result<Completed> {
    if |assets| == 0 || |amounts| != |assets| then Err(InvalidFlashLoanParams)
    else if t.treasury == None then Err(TreasuryNotSet)
    else
      var n := Min(|assets|, MAX_LOANS);
      var debts :- PlanAll(l, listings, t, assets, amounts, n);
      PlanLength(l, listings, t, assets, amounts, n);
      var lent :- LendAll(l, receiver, debts, amounts, n);
      var after := run(lent, debts);
      var _ :- Need(after.success, FlashLoanExecutionFailed);
      var settled :- SettleAll(after.ledger, after.listings, t, t.treasury.value, debts, n);
      Ok(Completed(debts, after, settled))
  }

  // ------------------------------------------------------------------ the router's loops

  lemma {:induction false} PlanFails(l: Ledger, listings: Listings, t: Terms, assets: seq<Address>,
      amounts: seq<nat>, m: nat, n: nat)
    requires m <= n <= |assets| == |amounts| && PlanAll(l, listings, t, assets, amounts, m).Err?
    ensures PlanAll(l, listings, t, assets, amounts, n) == PlanAll(l, listings, t, assets, amounts, m)
    decreases n
  {
    if m < n {
      PlanFails(l, listings, t, assets, amounts, m, n - 1);
    }
  }

  lemma {:induction false} LendFails(l: Ledger, receiver: Address, debts: seq<Debt>, amounts: seq<nat>, m: nat, n: nat)
    requires m <= n <= |debts| <= |amounts| && LendAll(l, receiver, debts, amounts, m).Err?
    ensures LendAll(l, receiver, debts, amounts, n) == LendAll(l, receiver, debts, amounts, m)
    decreases n
  {
    if m < n {
      LendFails(l, receiver, debts, amounts, m, n - 1);
    }
  }

  lemma {:induction false} SettleFails(l: Ledger, listings: Listings, t: Terms, treasury: Address, debts: seq<Debt>,
      m: nat, n: nat)
    requires m <= n <= |debts| && SettleAll(l, listings, t, treasury, debts, m).Err?
    ensures SettleAll(l, listings, t, treasury, debts, n) == SettleAll(l, listings, t, treasury, debts, m)
    decreases n
  {
    if m < n {
      SettleFails(l, listings, t, treasury, debts, m, n - 1);
    }
  }

  /** The pool's view of a flash loan: the token balances, the reserves and the flag set while one runs. */
  class FlashLender {
    var ledger: Ledger
    var listings: Listings
    var flashActive: bool

    constructor (l: Ledger, reserves: Listings)
      ensures ledger == l && listings == reserves && !flashActive
    {
      ledger, listings, flashActive := l, reserves, false;
    }

    method Plan(t: Terms, assets: seq<Address>, amounts: seq<nat>) returns (r: Result<seq<Debt>>)
      requires |assets| == |amounts|
      ensures r == PlanAll(ledger, listings, t, assets, amounts, Min(|assets|, MAX_LOANS))
    {
      hide PlanOne;
      var debts := [];
      var n := Min(|assets|, MAX_LOANS);
      for i := 0 to n
        invariant PlanAll(ledger, listings, t, assets, amounts, i) == Ok(debts)
      {
        var d := PlanOne(ledger, listings, t, assets[i], amounts[i], i);
        if d.Err? {
          PlanFails(ledger, listings, t, assets, amounts, i + 1, n);
          return Err(d.error);
        }
        debts := debts + [d.value];
      }
      return Ok(debts);
    }

    method Lend(receiver: Address, debts: seq<Debt>, amounts: seq<nat>) returns (r: Result<Ledger>)
      requires |debts| <= |amounts|
      ensures r == LendAll(ledger, receiver, debts, amounts, |debts|)
    {
      hide LendOne;
      var l := ledger;
      for i := 0 to |debts|
        invariant LendAll(ledger, receiver, debts, amounts, i) == Ok(l)
      {
        var lent := LendOne(l, receiver, debts[i], amounts[i]);
        if lent.Err? {
          LendFails(ledger, receiver, debts, amounts, i + 1, |debts|);
          return lent;
        }
        l := lent.value;
      }
      return Ok(l);
    }

    method Collect(after: Aftermath, t: Terms, treasury: Address, debts: seq<Debt>) returns (r: Result<Ledger>)
      ensures r == SettleAll(after.ledger, after.listings, t, treasury, debts, |debts|)
    {
      hide SettleOne;
      var l := after.ledger;
      for i := 0 to |debts|
        invariant SettleAll(after.ledger, after.listings, t, treasury, debts, i) == Ok(l)
      {
        var settled := SettleOne(l, after.listings, t, treasury, debts[i], i);
        if settled.Err? {
          SettleFails(after.ledger, after.listings, t, treasury, debts, i + 1, |debts|);
          return settled;
        }
        l := settled.value;
      }
      return Ok(l);
    }

    /** The steps up to the last transfer; the flag is up exactly while the receiver runs. */
    method ExecuteBody(t: Terms, receiver: Address, assets: seq<Address>, amounts: seq<nat>, run: (Ledger,
        seq<Debt>) -> Aftermath)
      returns (r: Result<()>)
      modifies this
      ensures var outcome := FlashLoan(old(ledger), old(listings), t, receiver, assets, amounts, run);
              if outcome.Ok? then
                && r == Ok(()) && ledger == outcome.value.ledger && listings == outcome.value.aftermath.listings
                && !flashActive
              else
                r == Err(outcome.error) && ledger == old(ledger) && listings == old(listings)
    {
      hide PlanAll, LendAll, SettleAll;
      if |assets| == 0 || |amounts| != |assets| {
        return Err(InvalidFlashLoanParams);
      }
      if t.treasury == None {
        return Err(TreasuryNotSet);
      }
      var debts :- Plan(t, assets, amounts);
      PlanLength(ledger, listings, t, assets, amounts, Min(|assets|, MAX_LOANS));
      var lent :- Lend(receiver, debts, amounts);
      flashActive := true;
      var after := run(lent, debts);
      flashActive := false;
      if !after.success {
        return Err(FlashLoanExecutionFailed);
      }
      var settled :- Collect(after, t, t.treasury.value, debts);
      ledger, listings := settled, after.listings;
      return Ok(());
    }

    /** `run` stands for the receiver's code: any function of what it sees. A failed loan is rolled back. */
    method Execute(t: Terms, receiver: Address, assets: seq<Address>, amounts: seq<nat>, run: (Ledger,
        seq<Debt>) -> Aftermath)
      returns (r: Result<()>)
      modifies this
      ensures var outcome := FlashLoan(old(ledger), old(listings), t, receiver, assets, amounts, run);
              if outcome.Ok? then
                && r == Ok(()) && ledger == outcome.value.ledger && listings == outcome.value.aftermath.listings
                && !flashActive
              else
                && r == Err(outcome.error) && ledger == old(ledger) && listings == old(listings)
                && flashActive == old(flashActive)
    {
      hide FlashLoan;
      var flagBefore := flashActive;
      r := ExecuteBody(t, receiver, assets, amounts, run);
      if r.Err? {
        flashActive := flagBefore;
      }
    }
  }

  // ------------------------------------------------------------------ what a completed loan guarantees

  /** Deployment: a reserve keeps its aToken, a prefetched reserve is the stored one, no aToken is the treasury. */
  ghost predicate Deployed(listings: Listings, after: Listings, t: Terms, assets: seq<Address>) {
    && |assets| > 0 && t.treasury.Some?
    && (forall a :: a in listings && a in after ==> after[a].aToken == listings[a].aToken)
    && (forall a :: a in listings ==> listings[a].aToken != t.treasury.value)
    && (t.prefetched.Some? ==> assets[0] in listings && t.prefetched.value.aToken == listings[assets[0]].aToken)
  }

  /** Entries remember their asset's aToken and its balance before anything was lent. */
  ghost predicate Planned(l: Ledger, listings: Listings, assets: seq<Address>, debts: seq<Debt>) {
    && |debts| <= |assets|
    && forall i :: 0 <= i < |debts| ==>
         && debts[i].asset == assets[i] && assets[i] in listings && debts[i].aToken == listings[assets[i]].aToken
         && debts[i].initial == Balance(l, assets[i], debts[i].aToken)
  }

  lemma PlanOneRemembers(l: Ledger, listings: Listings, t: Terms, asset: Address, amount: nat, i: nat)
    requires PlanOne(l, listings, t, asset, amount, i).Ok?
    ensures var d := PlanOne(l, listings, t, asset, amount, i).value;
            && d.asset == asset && ReserveFor(listings, t, asset, i).Ok?
            && d.aToken == ReserveFor(listings, t, asset, i).value.aToken
            && d.initial == Balance(l, asset, d.aToken) && d.owed == amount + d.premium
            && if t.charged then amount * t.bps <= d.premium * BASIS_POINTS < amount * t.bps + BASIS_POINTS
               else d.premium == 0
  {
  }

  lemma {:induction false} PlansRemember(l: Ledger, listings: Listings, t: Terms, assets: seq<Address>,
      amounts: seq<nat>, n: nat)
    requires n <= |assets| == |amounts| && Deployed(listings, listings, t, assets)
    requires PlanAll(l, listings, t, assets, amounts, n).Ok?
    ensures Planned(l, listings, assets, PlanAll(l, listings, t, assets, amounts, n).value)
    ensures |PlanAll(l, listings, t, assets, amounts, n).value| == n
    ensures forall i :: 0 <= i < n ==>
              var d := PlanAll(l, listings, t, assets, amounts, n).value[i];
              if t.charged then amounts[i] * t.bps <= d.premium * BASIS_POINTS < amounts[i] * t.bps + BASIS_POINTS
              else d.premium == 0
    ensures forall i :: 0 <= i < n ==>
              var d := PlanAll(l, listings, t, assets, amounts, n).value[i]; d.owed == amounts[i] + d.premium
  {
    if n > 0 {
      PlansRemember(l, listings, t, assets, amounts, n - 1);
      PlanOneRemembers(l, listings, t, assets[n - 1], amounts[n - 1], n - 1);
    }
  }

  /** The premiums owed in one asset among the first n entries. */
  function Premiums(debts: seq<Debt>, asset: Address, n: nat): nat
    requires n <= |debts|
  {
    if n == 0 then 0
    else Premiums(debts, asset, n - 1) + if debts[n - 1].asset == asset then debts[n - 1].premium else 0
  }

  /** One settlement leaves its own aToken at or above the start, and moves only the premium. */
  lemma SettleOneMoves(l: Ledger, listings: Listings, t: Terms, treasury: Address, d: Debt, i: nat)
    requires SettleOne(l, listings, t, treasury, d, i).Ok?
    requires ReserveFor(listings, t, d.asset, i).Ok? ==> ReserveFor(listings, t, d.asset, i).value.aToken == d.aToken
    requires d.aToken != treasury
    ensures var next := SettleOne(l, listings, t, treasury, d, i).value;
            && Balance(next, d.asset, d.aToken) >= d.initial
            && Balance(next, d.asset, treasury) == Balance(l, d.asset, treasury) + d.premium
            && (forall a, h :: a != d.asset ==> Balance(next, a, h) == Balance(l, a, h))
            && (forall h :: h != d.aToken && h != treasury ==> Balance(next, d.asset, h) == Balance(l, d.asset, h))
  {
  }

  lemma {:induction false} SettlementKeeps(start: Ledger, listings: Listings, l: Ledger, after: Listings, t: Terms,
                                           assets: seq<Address>, debts: seq<Debt>, n: nat, asset: Address)
    requires n <= |debts| && Deployed(listings, after, t, assets) && Planned(start, listings, assets, debts)
    requires SettleAll(l, after, t, t.treasury.value, debts, n).Ok?
    ensures var end := SettleAll(l, after, t, t.treasury.value, debts, n).value;
            && (forall i :: 0 <= i < n ==> Balance(end, assets[i], debts[i].aToken) >= Balance(start, assets[i],
                debts[i].aToken))
            && Balance(end, asset, t.treasury.value) == Balance(l, asset, t.treasury.value) + Premiums(debts, asset, n)
            && (forall h :: h != t.treasury.value && (asset in listings ==> h != listings[asset].aToken) ==>
                  Balance(end, asset, h) == Balance(l, asset, h))
  {
    hide SettleOne;
    if n > 0 {
      SettlementKeeps(start, listings, l, after, t, assets, debts, n - 1, asset);
      var d := debts[n - 1];
      SettleOneMoves(SettleAll(l, after, t, t.treasury.value, debts, n - 1).value, after, t, t.treasury.value, d,
          n - 1);
    }
  }

  /**
   Flash loans are safe for any asset list, repeats included, and any receiver: on success every lent
   reserve ends no lower than it began, the settlement pays the treasury exactly the premiums, each the
   ceiling of its percentage, and it moves nothing else.
   */
  lemma FlashLoanSafe(l: Ledger, listings: Listings, t: Terms, receiver: Address, assets: seq<Address>,
                      amounts: seq<nat>, run: (Ledger, seq<Debt>) -> Aftermath, asset: Address)
    requires FlashLoan(l, listings, t, receiver, assets, amounts, run).Ok?
    requires Deployed(listings, FlashLoan(l, listings, t, receiver, assets, amounts, run).value.aftermath.listings,
        t, assets)
    ensures var done := FlashLoan(l, listings, t, receiver, assets, amounts, run).value;
            var n := Min(|assets|, MAX_LOANS);
            && |done.debts| == n && |amounts| == |assets|
            && (forall i :: 0 <= i < n ==> assets[i] in listings)
            && (forall i :: 0 <= i < n ==>
                  Balance(done.ledger, assets[i], listings[assets[i]].aToken)
                  >= Balance(l, assets[i], listings[assets[i]].aToken))
            && Balance(done.ledger, asset, t.treasury.value)
               == Balance(done.aftermath.ledger, asset, t.treasury.value) + Premiums(done.debts, asset, n)
            && (forall h :: h != t.treasury.value && (asset in listings ==> h != listings[asset].aToken) ==>
                  Balance(done.ledger, asset, h) == Balance(done.aftermath.ledger, asset, h))
            && (forall i :: 0 <= i < n ==>
                  && done.debts[i].asset == assets[i]
                  && if t.charged then
                       amounts[i] * t.bps <= done.debts[i].premium * BASIS_POINTS < amounts[i] * t.bps + BASIS_POINTS
                     else done.debts[i].premium == 0)
  {
    hide PlanAll, LendAll, SettleAll, Premiums;
    var done := FlashLoan(l, listings, t, receiver, assets, amounts, run).value;
    var n := Min(|assets|, MAX_LOANS);
    PlansRemember(l, listings, t, assets, amounts, n);
    SettlementKeeps(l, listings, done.aftermath.ledger, done.aftermath.listings, t, assets, done.debts, n, asset);
  }

  // ------------------------------------------------------------------ who may borrow, and what is lent

  /** Every planned entry is of a reserve that lends, is active and not paused, and holds the amount. */
  lemma {:induction false} PlansAreAllowed(l: Ledger, listings: Listings, t: Terms, assets: seq<Address>,
      amounts: seq<nat>, n: nat)
    requires n <= |assets| == |amounts| && PlanAll(l, listings, t, assets, amounts, n).Ok?
    ensures forall i :: 0 <= i < n ==>
              && amounts[i] > 0 && ReserveFor(listings, t, assets[i], i).Ok?
              && var r := ReserveFor(listings, t, assets[i], i).value;
                 r.flashEnabled && r.active && !r.paused && Balance(l, assets[i], r.aToken) >= amounts[i]
  {
    hide PercentMulUp;
    if n > 0 {
      PlansAreAllowed(l, listings, t, assets, amounts, n - 1);
    }
  }

  /** What the first n entries lend of one asset, out of one holder. */
  function LentOut(debts: seq<Debt>, amounts: seq<nat>, asset: Address, holder: Address, n: nat): nat
    requires n <= |debts| <= |amounts|
  {
    if n == 0 then 0
    else
      LentOut(debts, amounts, asset, holder, n - 1)
      + if debts[n - 1].asset == asset && debts[n - 1].aToken == holder then amounts[n - 1] else 0
  }

  /** And of one asset, out of any. */
  function Lent(debts: seq<Debt>, amounts: seq<nat>, asset: Address, n: nat): nat
    requires n <= |debts| <= |amounts|
  {
    if n == 0 then 0
    else Lent(debts, amounts, asset, n - 1) + if debts[n - 1].asset == asset then amounts[n - 1] else 0
  }

  /** The receiver gets every loan, each aToken gives exactly its own, and nobody else's balance moves. */
  lemma {:induction false} LendingGives(l: Ledger, receiver: Address, debts: seq<Debt>, amounts: seq<nat>, n: nat,
      asset: Address, holder: Address)
    requires n <= |debts| <= |amounts| && LendAll(l, receiver, debts, amounts, n).Ok?
    requires forall i :: 0 <= i < |debts| ==> debts[i].aToken != receiver
    ensures var lent := LendAll(l, receiver, debts, amounts, n).value;
            && Balance(lent, asset, receiver) == Balance(l, asset, receiver) + Lent(debts, amounts, asset, n)
            && (holder != receiver ==>
                  Balance(lent, asset, holder) + LentOut(debts, amounts, asset, holder, n) == Balance(l, asset, holder))
            && (forall i :: 0 <= i < n ==> 0 < amounts[i] <= I128_MAX)
  {
    if n > 0 {
      LendingGives(l, receiver, debts, amounts, n - 1, asset, holder);
    }
  }

  /** A completed loan ran a receiver that reported success, on everything lent. */
  lemma CompletedSucceeded(l: Ledger, listings: Listings, t: Terms, receiver: Address, assets: seq<Address>,
      amounts: seq<nat>, run: (Ledger, seq<Debt>) -> Aftermath)
    requires FlashLoan(l, listings, t, receiver, assets, amounts, run).Ok?
    ensures FlashLoan(l, listings, t, receiver, assets, amounts, run).value.aftermath.success
    ensures t.treasury.Some? && |assets| == |amounts| > 0
  {
    hide PlanAll, LendAll, SettleAll;
  }

  /** A receiver that leaves the loan and its premium behind completes it, whatever else it does. */
  lemma HonestLoanCompletes(l: Ledger, listings: Listings, t: Terms, receiver: Address, asset: Address, amount: nat,
      run: (Ledger, seq<Debt>) -> Aftermath, r: FlashReserve, premium: nat)
    requires t.treasury.Some? && ReserveFor(listings, t, asset, 0) == Ok(r)
    requires r.flashEnabled && r.active && !r.paused && r.aToken != receiver && r.aToken != t.treasury.value
    requires (if t.charged then PercentMulUp(amount, t.bps) else Ok(0)) == Ok(premium)
    requires 0 < amount <= Min(Balance(l, asset, r.aToken), I128_MAX) && premium <= I128_MAX
    requires Balance(l, asset, receiver) + amount <= I128_MAX
    requires Balance(l, asset, r.aToken) + premium <= U128_MAX && amount + premium <= U128_MAX
    requires var lent := LendOne(l, receiver, Debt(asset, r.aToken, amount + premium, premium,
                                                   Balance(l, asset, r.aToken)), amount);
             && lent.Ok?
             && var after := run(lent.value, [Debt(asset, r.aToken, amount + premium, premium,
                                                   Balance(l, asset, r.aToken))]);
                && after.success && ReserveFor(after.listings, t, asset, 0) == Ok(r)
                && Balance(after.ledger, asset, r.aToken) >= Balance(l, asset, r.aToken) + premium
                && Balance(after.ledger, asset, t.treasury.value) + premium <= I128_MAX
    ensures FlashLoan(l, listings, t, receiver, [asset], [amount], run).Ok?
  {
    hide PercentMulUp;
    var d := Debt(asset, r.aToken, amount + premium, premium, Balance(l, asset, r.aToken));
    assert PlanOne(l, listings, t, asset, amount, 0) == Ok(d);
    assert PlanAll(l, listings, t, [asset], [amount], 1) == Ok([d]) by {
      assert PlanAll(l, listings, t, [asset], [amount], 0) == Ok([]);
      assert [] + [d] == [d];
    }
    var lent := LendOne(l, receiver, d, amount).value;
    assert LendAll(l, receiver, [d], [amount], 1) == Ok(lent) by {
      assert LendAll(l, receiver, [d], [amount], 0) == Ok(l);
    }
    var after := run(lent, [d]);
    assert SettleOne(after.ledger, after.listings, t, t.treasury.value, d, 0).Ok?;
    assert SettleAll(after.ledger, after.listings, t, t.treasury.value, [d], 1).Ok? by {
      assert SettleAll(after.ledger, after.listings, t, t.treasury.value, [d], 0) == Ok(after.ledger);
    }
  }

  /** And the lending itself needs only the balance: the receiver of a loan that fits gets it. */
  lemma LoanIsSent(l: Ledger, receiver: Address, d: Debt, amount: nat)
    requires 0 < amount <= Min(Balance(l, d.asset, d.aToken), I128_MAX) && d.aToken != receiver
    requires Balance(l, d.asset, receiver) + amount <= I128_MAX
    ensures LendOne(l, receiver, d, amount).Ok?
  {
  }
}
