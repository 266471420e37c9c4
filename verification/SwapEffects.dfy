/** What a collateral swap does to the two reserves, in amounts, and what it asks for. */
module SwapEffects {
  import opened Common
  import opened RayMath
  import opened Tokens
  import opened Reserves
  import opened Swaps
  import opened Solvency
  import opened CrossSolvency
  import opened Effects

  /** What a swap asks of its surroundings and of the two reserves. */
  lemma CheckSwapMeans(from: Data, to: Data, e: SwapEnv, amount: nat, minOut: nat)
    ensures CheckSwap(from, to, e, amount, minOut).Ok? <==>
            && amount > 0 && minOut > 0 && e.externalsOk && !e.poolPaused
            && !from.config.paused && !to.config.paused && from.config.active && to.config.active && !to.config.frozen
  {
  }

  /**
   The sale burns the ceiling of the request (or of the whole display) in shares, pays out the floor of their worth,
   and drops the flag exactly when no share is left.
   */
  lemma SellEffect(r: Reserve, user: Address, amount: nat)
    requires Backed(r.supply) && SellMove(r, user, amount).Ok?
    ensures var (r', paid) := SellMove(r, user, amount).value;
            var (index, burned) := (r.data.liquidityIndex, r.supply.Of(user) - r'.supply.Of(user));
            var want := if amount == U128_MAX then MulNear(r.supply.Of(user), index) else amount;
            && r'.data == r.data && DebtSideKept(r, r') && r'.cash + paid == r.cash
            && OneHolderChanged(r.supply, r'.supply, user) && paid <= want && paid * RAY <= burned * index
            && (paid == want || burned * index < paid * RAY + RAY)
            && (burned * index >= want * RAY || r'.supply.Of(user) == 0) && burned * index < want * RAY + index
            && r'.collateralBits == (if r'.supply.Of(user) == 0 then r.collateralBits - {user} else r.collateralBits)
  {
    hide ATokenBurnAndTransfer, OneHolderChanged, Backed, MulNear;
    var want := SwapAmount(r, user, amount).value;
    BurnsKeepBacked(r.supply, user, want, r.data.liquidityIndex);
    PaidBurnNeverOverpays(r.supply, user, want, r.data.liquidityIndex);
    PaidBurnSets(r.supply, user, want, r.data.liquidityIndex);
  }

  /**
   The purchase takes the proceeds, at least the minimum asked for, less the protocol fee into cash, credits their
   floor in shares, sets the flag, and respects the supply cap.
   */
  lemma BuyEffect(r: Reserve, e: SwapEnv, user: Address, minOut: nat)
    requires Backed(r.supply) && BuyMove(r, e, user, minOut).Ok?
    ensures e.received >= minOut && PercentMul(e.received, e.feeBps).Ok?
    ensures var (r', fee) := (BuyMove(r, e, user, minOut).value, PercentMul(e.received, e.feeBps).value);
            var (index, gained, deposit) := (r.data.liquidityIndex, r'.supply.Of(user) - r.supply.Of(user),
                                             e.received - fee);
            && e.received * e.feeBps - 5_000 < fee * BASIS_POINTS <= e.received * e.feeBps + 5_000 && deposit > 0
            && r'.data == r.data && DebtSideKept(r, r') && r'.cash == r.cash + deposit
            && OneHolderChanged(r.supply, r'.supply, user)
            && gained * index <= deposit * RAY < gained * index + index
            && r'.collateralBits == r.collateralBits + {user}
            && (r.data.config.supplyCap > 0 ==>
                  MulNear(Shares(r.supply), index) + deposit <= LimitInUnits(r.data.config.supplyCap, r.data))
  {
    hide ATokenMint, OneHolderChanged, Backed, MulNear, CheckSupplyCap, LimitInUnits;
    var deposit := e.received - PercentMul(e.received, e.feeBps).value;
    MintsKeepBacked(r.supply, user, deposit, r.data.liquidityIndex);
    MintIsFloor(r.supply, user, deposit, r.data.liquidityIndex);
    TotalIsCount(r.supply);
    if r.data.config.supplyCap > 0 {
      SupplyCapHolds(r.supply, r.data, deposit);
    }
  }

  /** A swap end to end: both sides on indices brought up to date, and only for an account healthy afterwards. */
  lemma SwapEffect(from: Reserve, to: Reserve, e: SwapEnv, user: Address, amount: nat, minOut: nat)
    requires SwapCollateral(from, to, e, user, amount, minOut).Ok?
    ensures e.healthOk && CheckSwap(from.data, to.data, e, amount, minOut).Ok?
    ensures AccrueQuietly(from.data, e.now).Ok? && AccrueQuietly(to.data, e.now).Ok?
    ensures var (from', to') := SwapCollateral(from, to, e, user, amount, minOut).value;
            var sold := SellMove(from.(data := AccrueQuietly(from.data, e.now).value), user, amount);
            var bought := BuyMove(to.(data := AccrueQuietly(to.data, e.now).value), e, user, minOut);
            && sold.Ok? && bought.Ok?
            && from'.supply == sold.value.0.supply && from'.cash == sold.value.0.cash
            && from'.collateralBits == sold.value.0.collateralBits && DebtSideKept(from, from')
            && to'.supply == bought.value.supply && to'.cash == bought.value.cash
            && to'.collateralBits == bought.value.collateralBits && DebtSideKept(to, to')
  {
    hide CheckSwap, AccrueQuietly, ATokenBurnAndTransfer, ATokenMint, SwapAmount, CheckSupplyCap, PercentMul;
    hide RefreshRates;
    var sold := SellMove(from.(data := AccrueQuietly(from.data, e.now).value), user, amount).value.0;
    var bought := BuyMove(to.(data := AccrueQuietly(to.data, e.now).value), e, user, minOut).value;
    RefreshShape(sold, e.fromParams);
    RefreshShape(bought, e.toParams);
  }

  // ------------------------------------------------------------------ nothing else stands in the way

  /** Any part of a displayed balance that the reserve holds in cash can be sold, and so can the whole display. */
  lemma SellGoesThrough(r: Reserve, user: Address, amount: nat, shown: nat)
    requires Backed(r.supply) && r.data.liquidityIndex >= RAY
    requires BalanceWithIndex(r.supply, user, r.data.liquidityIndex) == Ok(shown) && shown > 0
    requires 0 < amount && (amount == U128_MAX || amount <= shown)
    requires (if amount == U128_MAX then shown else amount) <= r.cash
    ensures SellMove(r, user, amount).Ok?
  {
    hide ATokenBurnAndTransfer, MulNear;
    var want := if amount == U128_MAX then shown else amount;
    BurnGoesThrough(r.supply, user, want, r.data.liquidityIndex, shown);
    PaidBurnNeverOverpays(r.supply, user, want, r.data.liquidityIndex);
  }

  /** Proceeds of at least the minimum, beyond the fee and within the cap, are taken. */
  lemma BuyGoesThrough(r: Reserve, e: SwapEnv, user: Address, minOut: nat)
    requires e.received >= minOut && PercentMul(e.received, e.feeBps).Ok?
    requires PercentMul(e.received, e.feeBps).value < e.received
    requires var (d, deposit) := (r.data, e.received - PercentMul(e.received, e.feeBps).value);
             && d.liquidityIndex > 0
             && Fits(r.supply, d, user, d.liquidityIndex, deposit, DivDown(deposit, d.liquidityIndex))
             && (d.config.supplyCap == 0 ||
                   MulNear(r.supply.total, d.liquidityIndex) + deposit <= LimitInUnits(d.config.supplyCap, d))
    ensures BuyMove(r, e, user, minOut).Ok?
  {
    hide MulNear, DivDown, ATokenMint, CheckSupplyCap, LimitInUnits, Pow10, PercentMul;
    var deposit := e.received - PercentMul(e.received, e.feeBps).value;
    LimitsAreExact(r.supply, r.data, r.data.liquidityIndex, deposit);
    MintAccepted(r.supply, user, deposit, r.data.liquidityIndex);
  }

  /** And a swap whose sides go through needs nothing but a healthy account and rates that exist. */
  lemma SwapGoesThrough(from: Reserve, to: Reserve, e: SwapEnv, user: Address, amount: nat, minOut: nat)
    requires CheckSwap(from.data, to.data, e, amount, minOut).Ok? && e.healthOk
    requires AccrueQuietly(from.data, e.now).Ok? && AccrueQuietly(to.data, e.now).Ok?
    requires var sold := SellMove(from.(data := AccrueQuietly(from.data, e.now).value), user, amount);
             sold.Ok? && RefreshRates(sold.value.0, e.fromParams).Ok?
    requires var bought := BuyMove(to.(data := AccrueQuietly(to.data, e.now).value), e, user, minOut);
             bought.Ok? && RefreshRates(bought.value, e.toParams).Ok?
    ensures SwapCollateral(from, to, e, user, amount, minOut).Ok?
  {
    hide CheckSwap, AccrueQuietly, SellMove, BuyMove, RefreshRates;
  }
}
