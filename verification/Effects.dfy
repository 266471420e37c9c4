/**
 What the calls on one reserve do, in amounts: cash moves by exactly the amount, shares by the amount rounded in the
 pool's favour, nobody else's entries or flags move, and the flags, limits and checks say what they should. All at
 the indices brought up to date, and time moves those by the interest it should.
 */
module Effects {
  import opened Common
  import opened RayMath
  import opened Interest
  import opened Totals
  import opened Tokens
  import opened Reserves
  import opened Solvency

  /** The debt side, or below the supply side, of a reserve is as it was. */
  ghost predicate DebtSideKept(r: Reserve, r': Reserve) {
    r'.debt == r.debt && r'.deficit == r.deficit && r'.borrowBits == r.borrowBits
  }

  ghost predicate SupplySideKept(r: Reserve, r': Reserve) {
    r'.supply == r.supply && r'.deficit == r.deficit && r'.collateralBits == r.collateralBits
  }

  /** A configured whole-token limit, in the asset's smallest units. */
  function LimitInUnits(whole: nat, d: Data): nat {
    whole * Pow10(d.config.decimals)
  }

  /** What every user operation asks of its surroundings and of the reserve. */
  predicate Admitted(d: Data, e: Env, amount: nat) {
    e.externalsOk && !e.poolPaused && amount > 0 && d.config.active && !d.config.paused
  }

  lemma OpenIsAdmitted(d: Data, e: Env, amount: nat)
    ensures CheckOpen(d, e, amount).Ok? <==> Admitted(d, e, amount)
  {
  }

  // ------------------------------------------------------------------ shares and limits, one call each

  lemma MintIsFloor(s: Scaled, user: Address, amount: nat, index: nat)
    requires ATokenMint(s, user, amount, index).Ok?
    ensures var m := ATokenMint(s, user, amount, index).value;
            && m.first == (s.Of(user) == 0) && m.state.Of(user) == s.Of(user) + m.minted
            && m.minted * index <= amount * RAY < m.minted * index + index
  {
  }

  lemma MintIsCeiling(s: Scaled, user: Address, amount: nat, index: nat)
    requires DebtMint(s, user, amount, index).Ok?
    ensures var m := DebtMint(s, user, amount, index).value;
            && m.state.Of(user) == s.Of(user) + m.minted
            && amount * RAY <= m.minted * index < amount * RAY + index
  {
  }

  /** A capped ceiling burn takes less than one share beyond the amount. */
  lemma BurnBelowOneShare(s: Scaled, user: Address, amount: nat, index: nat)
    requires ATokenBurn(s, user, amount, index).Ok?
    ensures ATokenBurn(s, user, amount, index).value.burned * index < amount * RAY + index
  {
    MulMonotone(ATokenBurn(s, user, amount, index).value.burned, DivUp(amount, index), index, index);
  }

  /** A floor burn takes all but less than one share of the amount. */
  lemma DebtBurnTakesItsWorth(s: Scaled, user: Address, amount: nat, index: nat)
    requires DebtBurn(s, user, amount, index).Ok?
    ensures amount * RAY < DebtBurn(s, user, amount, index).value.burned * index + index
  {
    MulMonotone(DivDown(amount, index), DebtBurn(s, user, amount, index).value.burned, index, index);
  }

  lemma BurnSets(s: Scaled, user: Address, amount: nat, index: nat)
    requires DebtBurn(s, user, amount, index).Ok?
    ensures DebtBurn(s, user, amount, index).value.state.Of(user) == DebtBurn(s, user, amount, index).value.userScaled
  {
  }

  lemma PaidBurnSets(s: Scaled, user: Address, amount: nat, index: nat)
    requires ATokenBurnAndTransfer(s, user, amount, index).Ok?
    ensures var p := ATokenBurnAndTransfer(s, user, amount, index).value; p.state.Of(user) == p.userScaled
  {
  }

  /** The limits are exact: whenever the numbers fit, a limit refuses exactly what exceeds it. */
  lemma LimitsAreExact(s: Scaled, d: Data, index: nat, amount: nat)
    requires s.total >= 0 && MulNear(s.total, index) + amount <= U128_MAX && Pow10(d.config.decimals) <= U128_MAX
    requires LimitInUnits(d.config.supplyCap, d) <= U128_MAX && LimitInUnits(d.config.borrowCap, d) <= U128_MAX
    requires LimitInUnits(d.config.debtCeiling, d) <= U128_MAX
    ensures index == d.liquidityIndex ==>
              (CheckSupplyCap(s, d, amount).Ok? <==>
                 d.config.supplyCap == 0 || MulNear(s.total, index) + amount <= LimitInUnits(d.config.supplyCap, d))
    ensures index == d.borrowIndex ==>
              (CheckBorrowCap(s, d, amount).Ok? <==>
                 && (d.config.borrowCap == 0 ||
                       MulNear(s.total, index) + amount <= LimitInUnits(d.config.borrowCap, d))
                 && (d.config.debtCeiling == 0 ||
                       MulNear(s.total, index) + amount <= LimitInUnits(d.config.debtCeiling, d)))
  {
    hide MulNear, Pow10;
  }

  lemma SupplyCapHolds(s: Scaled, d: Data, amount: nat)
    requires s.total >= 0 && CheckSupplyCap(s, d, amount).Ok? && d.config.supplyCap > 0
    ensures MulNear(Shares(s), d.liquidityIndex) + amount <= LimitInUnits(d.config.supplyCap, d)
  {
    hide MulNear, Pow10;
  }

  lemma BorrowLimitsHold(s: Scaled, d: Data, amount: nat)
    requires s.total >= 0 && CheckBorrowCap(s, d, amount).Ok?
    ensures d.config.borrowCap > 0 ==>
              MulNear(Shares(s), d.borrowIndex) + amount <= LimitInUnits(d.config.borrowCap, d)
    ensures d.config.debtCeiling > 0 ==>
              MulNear(Shares(s), d.borrowIndex) + amount <= LimitInUnits(d.config.debtCeiling, d)
  {
    hide MulNear, Pow10;
  }

  lemma MinDebtHolds(s: Scaled, d: Data, user: Address)
    requires CheckDebtAfterBorrow(s, d, user).Ok? && d.config.minRemainingDebt > 0
    ensures MulNear(s.Of(user), d.borrowIndex) >= LimitInUnits(d.config.minRemainingDebt, d)
  {
    hide MulNear, Pow10;
  }

  lemma RepayAmountIs(d: Data, amount: nat, shown: nat)
    requires RepayAmount(d, amount, shown).Ok?
    ensures var pay := RepayAmount(d, amount, shown).value;
            && pay == (if amount == U128_MAX then shown else Min(amount, shown))
            && (pay < shown && d.config.minRemainingDebt > 0 ==>
                  shown - pay >= LimitInUnits(d.config.minRemainingDebt, d))
  {
    hide Pow10;
  }

  lemma BurnNeedsShares(s: Scaled, user: Address, amount: nat, index: nat)
    requires ATokenBurn(s, user, amount, index).Ok? && amount <= MulNear(s.Of(user), index)
    ensures s.Of(user) > 0
  {
  }

  lemma Displayed(s: Scaled, user: Address, index: nat)
    ensures BalanceWithIndex(s, user, index).Ok? ==> BalanceWithIndex(s, user, index) == Ok(MulNear(s.Of(user), index))
  {
  }

  lemma TotalIsCount(s: Scaled)
    requires Backed(s)
    ensures s.total >= 0
  {
  }

  lemma SameDecimals(d: Data, d': Data, whole: nat)
    requires d.config == d'.config
    ensures LimitInUnits(whole, d) == LimitInUnits(whole, d')
  {
  }

  // ------------------------------------------------------------------ the four operations

  /**
   A supply: the shares credited are the floor of what was paid, a first deposit is at least the minimum and
   sets the user's collateral flag, and the displayed total plus the deposit stays under the cap.
   */
  lemma SupplyEffect(r: Reserve, e: Env, user: Address, amount: nat)
    requires Sound(r) && Supply(r, e, user, amount).Ok?
    ensures var r' := Supply(r, e, user, amount).value;
            var (index, gained) := (r'.data.liquidityIndex, r'.supply.Of(user) - r.supply.Of(user));
            && Admitted(r.data, e, amount) && !r.data.config.frozen
            && (r.supply.Of(user) == 0 && user !in r.collateralBits ==> e.roomOk)
            && r'.cash == r.cash + amount && DebtSideKept(r, r')
            && OneHolderChanged(r.supply, r'.supply, user)
            && gained * index <= amount * RAY < gained * index + index
            && r'.collateralBits == (if r.supply.Of(user) == 0 then r.collateralBits + {user} else r.collateralBits)
            && (r.supply.Of(user) == 0 ==> amount >= MIN_FIRST_DEPOSIT)
            && (r.data.config.supplyCap > 0 ==>
                  MulNear(Shares(r.supply), index) + amount <= LimitInUnits(r.data.config.supplyCap, r.data))
  {
    hide Accrue, RefreshRates, ATokenMint, ATokenBurn, DebtMint, DebtBurn, BalanceWithIndex, TotalWithIndex;
    hide CheckOpen, CheckSupplyCap, CheckBorrowCap, CheckDebtAfterBorrow, RepayAmount, MulNear, LimitInUnits;
    var moved := SupplyMove(r, e, user, amount).value;
    OpenIsAdmitted(r.data, e, amount);
    RefreshShape(moved, e.params);
    AccrualKeepsOrder(r.data, e.now);
    MintsKeepBacked(r.supply, user, amount, moved.data.liquidityIndex);
    MintIsFloor(r.supply, user, amount, moved.data.liquidityIndex);
    TotalIsCount(r.supply);
    if r.data.config.supplyCap > 0 {
      SupplyCapHolds(r.supply, moved.data, amount);
      SameDecimals(r.data, moved.data, r.data.config.supplyCap);
    }
  }

  /**
   A withdrawal pays exactly what was asked, or the whole displayed balance; it burns the ceiling of that in
   shares, or the last share; and asking for the whole display leaves no share and clears the flag.
   */
  lemma WithdrawEffect(r: Reserve, e: Env, user: Address, amount: nat)
    requires Sound(r) && Withdraw(r, e, user, amount).Ok?
    ensures var (r', paid) := Withdraw(r, e, user, amount).value;
            var (index, burned) := (r'.data.liquidityIndex, r.supply.Of(user) - r'.supply.Of(user));
            var shown := MulNear(r.supply.Of(user), index);
            && Admitted(r.data, e, amount) && (user in r.collateralBits ==> e.healthOk)
            && paid == (if amount == U128_MAX then shown else amount) && paid <= shown
            && r'.cash + paid == r.cash && DebtSideKept(r, r')
            && OneHolderChanged(r.supply, r'.supply, user)
            && (paid * RAY <= burned * index || r'.supply.Of(user) == 0) && burned * index < paid * RAY + index
            && (paid == shown ==> r'.supply.Of(user) == 0)
            && r'.collateralBits == (if paid == shown then r.collateralBits - {user} else r.collateralBits)
  {
    hide Accrue, RefreshRates, ATokenMint, ATokenBurn, DebtMint, DebtBurn, BalanceWithIndex, TotalWithIndex;
    hide CheckOpen, CheckSupplyCap, CheckBorrowCap, CheckDebtAfterBorrow, RepayAmount, MulNear, LimitInUnits;
    hide OneHolderChanged, Backed, DivUp;
    var (moved, want) := WithdrawMove(r, e, user, amount).value;
    var index := moved.data.liquidityIndex;
    OpenIsAdmitted(r.data, e, amount);
    RefreshShape(moved, e.params);
    AccrualKeepsOrder(r.data, e.now);
    BurnsKeepBacked(r.supply, user, want, index);
    SupplyBurnCovers(r.supply, user, want, index);
    BurnBelowOneShare(r.supply, user, want, index);
    Displayed(r.supply, user, index);
    BurnNeedsShares(r.supply, user, want, index);
    if want == MulNear(r.supply.Of(user), index) {
      FullSupplyExit(r.supply, user, index, want);
    }
  }

  /** A borrow pays out exactly the loan, charges its ceiling in shares, sets the flag and keeps both limits. */
  lemma BorrowEffect(r: Reserve, e: Env, user: Address, amount: nat)
    requires Sound(r) && Borrow(r, e, user, amount).Ok?
    ensures var r' := Borrow(r, e, user, amount).value;
            var (index, gained) := (r'.data.borrowIndex, r'.debt.Of(user) - r.debt.Of(user));
            && Admitted(r.data, e, amount) && !r.data.config.frozen && r.data.config.borrowingEnabled
            && e.healthOk && (user !in r.borrowBits ==> e.roomOk)
            && r'.cash + amount == r.cash && SupplySideKept(r, r')
            && OneHolderChanged(r.debt, r'.debt, user)
            && amount * RAY <= gained * index < amount * RAY + index
            && r'.borrowBits == r.borrowBits + {user}
            && (r.data.config.borrowCap > 0 ==>
                  MulNear(Shares(r.debt), index) + amount <= LimitInUnits(r.data.config.borrowCap, r.data))
            && (r.data.config.debtCeiling > 0 ==>
                  MulNear(Shares(r.debt), index) + amount <= LimitInUnits(r.data.config.debtCeiling, r.data))
            && (r.data.config.minRemainingDebt > 0 ==>
                  MulNear(r'.debt.Of(user), index) >= LimitInUnits(r.data.config.minRemainingDebt, r.data))
  {
    hide Accrue, RefreshRates, ATokenMint, ATokenBurn, DebtMint, DebtBurn, BalanceWithIndex, TotalWithIndex;
    hide CheckOpen, CheckSupplyCap, CheckBorrowCap, CheckDebtAfterBorrow, RepayAmount, MulNear, LimitInUnits;
    var moved := BorrowMove(r, e, user, amount).value;
    RefreshShape(moved, e.params);
    AccrualKeepsOrder(r.data, e.now);
    MintsKeepBacked(r.debt, user, amount, moved.data.borrowIndex);
    MintIsCeiling(r.debt, user, amount, moved.data.borrowIndex);
    TotalIsCount(r.debt);
    BorrowLimitsHold(r.debt, moved.data, amount);
    SameDecimals(r.data, moved.data, r.data.config.borrowCap);
    SameDecimals(r.data, moved.data, r.data.config.debtCeiling);
    OpenIsAdmitted(r.data, e, amount);
    if r.data.config.minRemainingDebt > 0 {
      MinDebtHolds(moved.debt, moved.data, user);
      SameDecimals(r.data, moved.data, r.data.config.minRemainingDebt);
    }
  }

  /**
   A repayment takes no more than was offered and no more than the displayed debt; it burns at most one
   share beyond its worth; paying the whole display leaves no share, and only that clears the flag; and a
   configured minimum leaves either nothing or at least the minimum displayed.
   */
  lemma RepayEffect(r: Reserve, e: Env, user: Address, amount: nat)
    requires Sound(r) && Repay(r, e, user, amount).Ok?
    ensures var (r', paid) := Repay(r, e, user, amount).value;
            var (index, burned) := (r'.data.borrowIndex, r.debt.Of(user) - r'.debt.Of(user));
            var shown := MulNear(r.debt.Of(user), index);
            && Admitted(r.data, e, amount) && shown > 0
            && paid == (if amount == U128_MAX then shown else Min(amount, shown))
            && r'.cash == r.cash + paid && SupplySideKept(r, r')
            && OneHolderChanged(r.debt, r'.debt, user)
            && paid * RAY < burned * index + index && burned * index <= paid * RAY + index
            && (paid == shown ==> r'.debt.Of(user) == 0)
            && r'.borrowBits == (if paid == shown then r.borrowBits - {user} else r.borrowBits)
            && (paid < shown && r.data.config.minRemainingDebt > 0 ==>
                  shown - paid >= LimitInUnits(r.data.config.minRemainingDebt, r.data))
  {
    hide Accrue, RefreshRates, ATokenMint, ATokenBurn, DebtMint, DebtBurn, BalanceWithIndex, TotalWithIndex;
    hide CheckOpen, CheckSupplyCap, CheckBorrowCap, CheckDebtAfterBorrow, RepayAmount, MulNear, LimitInUnits;
    hide OneHolderChanged, Backed, DivDown;
    var (moved, pay) := RepayMove(r, e, user, amount).value;
    var index := moved.data.borrowIndex;
    OpenIsAdmitted(r.data, e, amount);
    RefreshShape(moved, e.params);
    AccrualKeepsOrder(r.data, e.now);
    BurnsKeepBacked(r.debt, user, pay, index);
    DebtBurnWithinOneShare(r.debt, user, pay, index);
    DebtBurnTakesItsWorth(r.debt, user, pay, index);
    Displayed(r.debt, user, index);
    RepayAmountIs(moved.data, amount, MulNear(r.debt.Of(user), index));
    SameDecimals(r.data, moved.data, r.data.config.minRemainingDebt);
    if pay == MulNear(r.debt.Of(user), index) {
      FullDebtExit(r.debt, user, index, pay);
    }
  }

  // ------------------------------------------------------------------ the other calls on one reserve

  lemma MoveIsDirected(s: Scaled, from: Address, to: Address, shares: nat)
    requires from != to && Move(s, from, to, shares).Ok?
    ensures var s' := Move(s, from, to, shares).value;
            && s'.Of(from) + shares == s.Of(from) && s'.Of(to) == s.Of(to) + shares && s'.total == s.total
            && (forall u :: u != from && u != to ==> s'.Of(u) == s.Of(u))
  {
  }

  /**
   A transfer takes the ceiling of the amount in shares from the sender and gives it to the receiver, at the index
   of the moment; nothing else moves. The sender's flag is cleared exactly when no share is left, the receiver's is
   set when it holds any, and the sender's account must be healthy. A transfer to oneself changes nothing.
   */
  lemma TransferEffect(r: Reserve, e: Env, from: Address, to: Address, amount: nat)
    requires TransferShares(r, e, from, to, amount).Ok?
    ensures amount > 0 && (from == to ==> TransferShares(r, e, from, to, amount).value == r)
    ensures from != to ==> CurrentLiquidityIndex(r.data, e.now).Ok?
    ensures from != to ==>
              var (r', index) := (TransferShares(r, e, from, to, amount).value,
                                  CurrentLiquidityIndex(r.data, e.now).value);
              var n := r'.supply.Of(to) - r.supply.Of(to);
              && e.externalsOk && e.healthOk
              && amount * RAY <= n * index < amount * RAY + index
              && r'.supply.Of(from) + n == r.supply.Of(from)
              && (forall u :: u != from && u != to ==> r'.supply.Of(u) == r.supply.Of(u))
              && r'.supply.total == r.supply.total && r'.data == r.data && r'.cash == r.cash && DebtSideKept(r, r')
              && (from in r'.collateralBits <==> from in r.collateralBits && r'.supply.Of(from) > 0)
              && (to in r'.collateralBits <==> to in r.collateralBits || r'.supply.Of(to) > 0)
              && (to in r'.collateralBits && to !in r.collateralBits ==> e.roomOk)
              && (forall u :: u != from && u != to ==> (u in r'.collateralBits <==> u in r.collateralBits))
  {
    hide CurrentLiquidityIndex, DivUp, Move;
    if from != to {
      MoveIsDirected(r.supply, from, to, DivUp(amount, CurrentLiquidityIndex(r.data, e.now).value));
    }
  }

  /** Tokens sent to the aToken are cash and nothing else; a new configuration touches no book. */
  lemma DonationEffect(r: Reserve, amount: nat, config: Config)
    ensures Apply(r, DonateOp(amount)) == Ok(r.(cash := r.cash + amount))
    ensures Apply(r, ConfigureOp(config)) == Ok(r.(data := r.data.(config := config)))
  {
  }

  /** A deficit is covered by the offer or by what is left of it, which moves from the deficit into cash. */
  lemma CoverEffect(r: Reserve, externalsOk: bool, amount: nat)
    ensures CoverDeficit(r, externalsOk, amount).Ok? <==> amount > 0 && r.deficit > 0 && externalsOk
    ensures CoverDeficit(r, externalsOk, amount).Ok? ==>
              var (r', paid) := CoverDeficit(r, externalsOk, amount).value;
              && paid == Min(amount, r.deficit)
              && r' == r.(cash := r.cash + paid, deficit := r.deficit - paid)
  {
  }

  /**
   A collection pays the cash beyond idle liquidity and deficit, and leaves exactly those two behind when it pays
   anything; both are displayed totals at the indices of the moment.
   */
  lemma CollectEffect(r: Reserve, now: nat, treasurySet: bool)
    requires Backed(r.supply) && Backed(r.debt) && CollectReserves(r, now, treasurySet).Ok?
    ensures var (r', paid) := CollectReserves(r, now, treasurySet).value;
            var (supplied, owed) := (MulNear(Shares(r.supply), r'.data.liquidityIndex),
                                     MulNear(Shares(r.debt), r'.data.borrowIndex));
            && Accrue(r.data, now) == Ok(r'.data) && r' == r.(data := r'.data, cash := r'.cash)
            && r'.cash + paid == r.cash && owed <= supplied
            && (if paid > 0 then treasurySet && r'.cash == supplied - owed + r.deficit
                else r.cash <= supplied - owed + r.deficit)
  {
    hide Accrue, MulNear;
    TotalIsCount(r.supply);
    TotalIsCount(r.debt);
  }

  /** The collateral switch writes one flag, and drops it only for a healthy account. */
  lemma FlagEffect(r: Reserve, externalsOk: bool, healthOk: bool, user: Address, on: bool)
    ensures SetCollateralFlag(r, externalsOk, healthOk, user, on).Ok? <==>
            externalsOk && r.data.config.active && (on || healthOk)
    ensures SetCollateralFlag(r, externalsOk, healthOk, user, on).Ok? ==>
              var r' := SetCollateralFlag(r, externalsOk, healthOk, user, on).value;
              && r' == r.(collateralBits := r'.collateralBits) && (user in r'.collateralBits <==> on)
              && (forall u :: u != user ==> (u in r'.collateralBits <==> u in r.collateralBits))
  {
  }

  // ------------------------------------------------------------------ nothing else stands in the way

  lemma ZeroShows(index: nat)
    ensures MulNear(0, index) == 0
  {
  }

  lemma FloorBelowNear(a: nat, b: nat)
    ensures MulDown(a, b) <= MulNear(a, b)
  {
  }

  /** A burn of any part of a displayed balance goes through, whichever way it pays. */
  lemma BurnGoesThrough(s: Scaled, user: Address, amount: nat, index: nat, shown: nat)
    requires Backed(s) && index >= RAY && BalanceWithIndex(s, user, index) == Ok(shown) && 0 < amount <= shown
    ensures ATokenBurn(s, user, amount, index).Ok? && ATokenBurnAndTransfer(s, user, amount, index).Ok?
  {
    hide MulNear, MulDown, DivUp;
    FloorBelowNear(Min(DivUp(amount, index), s.Of(user)), index);
    SumBoundsEntry(s.of, user);
    var (held, up) := (s.Of(user), DivUp(amount, index));
    CeilingBelowUnits(amount, index, up);
    assert up > 0 by {
      assert amount * RAY <= up * index;
      assert up == 0 ==> up * index == 0;
    }
    assert held > 0 by {
      MulNearByRay(0, index);
      ZeroShows(index);
    }
    MulNearMonotone(Min(up, held), held, index, index);
  }

  /**
   Whoever is healthy may leave: with the reserve open, the totals displayable and the cash there, a withdrawal of
   any part of the displayed balance is refused for no other reason, and neither is one of the whole display.
   */
  lemma WithdrawGoesThrough(r: Reserve, e: Env, user: Address, amount: nat)
    requires Sound(r) && Accrue(r.data, e.now).Ok? && Admitted(r.data, e, amount)
    requires var index := Accrue(r.data, e.now).value.liquidityIndex;
             var shown := BalanceWithIndex(r.supply, user, index);
             && shown.Ok? && shown.value > 0 && TotalWithIndex(r.supply, index).Ok?
             && (amount == U128_MAX || amount <= shown.value)
             && (if amount == U128_MAX then shown.value else amount) <= r.cash
    requires user in r.collateralBits ==> e.healthOk
    ensures WithdrawMove(r, e, user, amount).Ok?
  {
    hide Accrue, MulNear, ATokenBurn, DivUp;
    AccrualKeepsOrder(r.data, e.now);
    OpenIsAdmitted(r.data, e, amount);
    var index := Accrue(r.data, e.now).value.liquidityIndex;
    var shown := BalanceWithIndex(r.supply, user, index).value;
    SumBoundsEntry(r.supply.of, user);
    MulNearMonotone(r.supply.Of(user), r.supply.total, index, index);
    BurnGoesThrough(r.supply, user, if amount == U128_MAX then shown else amount, index, shown);
  }

  /** Whoever owes a displayable debt may repay all of it. */
  lemma FullRepayGoesThrough(r: Reserve, e: Env, user: Address)
    requires Sound(r) && Accrue(r.data, e.now).Ok? && Admitted(r.data, e, U128_MAX) && r.debt.Of(user) > 0
    requires BalanceWithIndex(r.debt, user, Accrue(r.data, e.now).value.borrowIndex).Ok?
    ensures RepayMove(r, e, user, U128_MAX).Ok?
    ensures RepayMove(r, e, user, U128_MAX).value.0.debt.Of(user) == 0
  {
    hide Accrue, MulNear, DebtBurn, DivDown;
    AccrualKeepsOrder(r.data, e.now);
    OpenIsAdmitted(r.data, e, U128_MAX);
    var index := Accrue(r.data, e.now).value.borrowIndex;
    var shown := BalanceWithIndex(r.debt, user, index).value;
    DisplayDividesBack(r.debt.Of(user), index);
    FullDebtExit(r.debt, user, index, shown);
    BurnsKeepBacked(r.debt, user, shown, index);
    DebtBurnWithinOneShare(r.debt, user, shown, index);
  }

  /** Numbers that fit: the configured limits, the displayed total with the amount, and the shares it makes. */
  ghost predicate Fits(s: Scaled, d: Data, user: Address, index: nat, amount: nat, shares: nat) {
    && s.total >= 0 && MulNear(s.total, index) + amount <= U128_MAX && Pow10(d.config.decimals) <= U128_MAX
    && LimitInUnits(d.config.supplyCap, d) <= U128_MAX && LimitInUnits(d.config.borrowCap, d) <= U128_MAX
    && LimitInUnits(d.config.debtCeiling, d) <= U128_MAX && LimitInUnits(d.config.minRemainingDebt, d) <= U128_MAX
    && 0 < amount <= I128_MAX && s.Of(user) + shares <= I128_MAX && s.total + shares <= I128_MAX
  }

  lemma FirstIsFirst(s: Scaled, user: Address, amount: nat, index: nat)
    ensures ATokenMint(s, user, amount, index).Ok? ==>
              (ATokenMint(s, user, amount, index).value.first <==> s.Of(user) == 0)
  {
  }

  /** Anyone may supply up to the cap of an open, unfrozen reserve: what fits is refused for no other reason. */
  lemma SupplyGoesThrough(r: Reserve, e: Env, user: Address, amount: nat)
    requires Sound(r) && Accrue(r.data, e.now).Ok? && Admitted(r.data, e, amount) && !r.data.config.frozen
    requires var d := Accrue(r.data, e.now).value;
             && d.liquidityIndex > 0
             && Fits(r.supply, d, user, d.liquidityIndex, amount, DivDown(amount, d.liquidityIndex))
             && (d.config.supplyCap == 0 ||
                   MulNear(r.supply.total, d.liquidityIndex) + amount <= LimitInUnits(d.config.supplyCap, d))
    requires r.supply.Of(user) == 0 ==> amount >= MIN_FIRST_DEPOSIT && (user in r.collateralBits || e.roomOk)
    ensures SupplyMove(r, e, user, amount).Ok?
  {
    hide Accrue, MulNear, DivDown, ATokenMint, CheckSupplyCap, LimitInUnits, Pow10;
    var d := Accrue(r.data, e.now).value;
    OpenIsAdmitted(r.data, e, amount);
    LimitsAreExact(r.supply, d, d.liquidityIndex, amount);
    MintAccepted(r.supply, user, amount, d.liquidityIndex);
    FirstIsFirst(r.supply, user, amount, d.liquidityIndex);
  }

  lemma MinimumIsExact(d: Data, owed: nat)
    requires Pow10(d.config.decimals) <= U128_MAX && LimitInUnits(d.config.minRemainingDebt, d) <= U128_MAX
    ensures forall error :: CheckMinDebt(d, owed, error).Ok? <==>
              d.config.minRemainingDebt == 0 || owed >= LimitInUnits(d.config.minRemainingDebt, d)
  {
    hide Pow10;
  }

  lemma MintSets(s: Scaled, user: Address, amount: nat, index: nat)
    requires DebtMint(s, user, amount, index).Ok?
    ensures DebtMint(s, user, amount, index).value.state.Of(user) == s.Of(user) + DivUp(amount, index)
  {
    hide DivUp;
  }

  /** Whoever stays healthy may borrow what is there, up to both limits and down to the minimum. */
  lemma BorrowGoesThrough(r: Reserve, e: Env, user: Address, amount: nat)
    requires Sound(r) && Accrue(r.data, e.now).Ok? && Admitted(r.data, e, amount)
    requires !r.data.config.frozen && r.data.config.borrowingEnabled && e.healthOk && amount <= r.cash
    requires user in r.borrowBits || e.roomOk
    requires var d := Accrue(r.data, e.now).value;
             && d.borrowIndex > 0 && Fits(r.debt, d, user, d.borrowIndex, amount, DivUp(amount, d.borrowIndex))
             && var (owed, after) := (MulNear(r.debt.total, d.borrowIndex),
                                      MulNear(r.debt.Of(user) + DivUp(amount, d.borrowIndex), d.borrowIndex));
                && (d.config.borrowCap == 0 || owed + amount <= LimitInUnits(d.config.borrowCap, d))
                && (d.config.debtCeiling == 0 || owed + amount <= LimitInUnits(d.config.debtCeiling, d))
                && after <= I128_MAX
                && (d.config.minRemainingDebt == 0 || after >= LimitInUnits(d.config.minRemainingDebt, d))
    ensures BorrowMove(r, e, user, amount).Ok?
  {
    hide Accrue, MulNear, DivUp, DebtMint, CheckBorrowCap, LimitInUnits, Pow10, CheckMinDebt;
    var d := Accrue(r.data, e.now).value;
    OpenIsAdmitted(r.data, e, amount);
    LimitsAreExact(r.debt, d, d.borrowIndex, amount);
    MintAccepted(r.debt, user, amount, d.borrowIndex);
    MintSets(r.debt, user, amount, d.borrowIndex);
    var after := MulNear(r.debt.Of(user) + DivUp(amount, d.borrowIndex), d.borrowIndex);
    MinimumIsExact(d, after);
  }

  lemma CompareFloors(a: nat, b: nat, index: nat)
    requires a <= b && index > 0
    ensures DivDown(a, index) <= DivDown(b, index)
  {
    CompareQuotients(DivDown(a, index), DivDown(b, index), index);
  }

  /** A part of a displayable debt may be repaid whenever the rest is at least the minimum. */
  lemma PartialRepayGoesThrough(r: Reserve, e: Env, user: Address, amount: nat)
    requires Sound(r) && Accrue(r.data, e.now).Ok? && Admitted(r.data, e, amount) && r.debt.Of(user) <= I128_MAX
    requires var d := Accrue(r.data, e.now).value;
             var shown := MulNear(r.debt.Of(user), d.borrowIndex);
             && amount < shown <= I128_MAX
             && Pow10(d.config.decimals) <= U128_MAX && LimitInUnits(d.config.minRemainingDebt, d) <= U128_MAX
             && (d.config.minRemainingDebt == 0 || shown - amount >= LimitInUnits(d.config.minRemainingDebt, d))
    ensures RepayMove(r, e, user, amount).Ok? && RepayMove(r, e, user, amount).value.1 == amount
  {
    hide Accrue, MulNear, DebtBurn, DivDown, Pow10, CheckMinDebt, LimitInUnits;
    AccrualKeepsOrder(r.data, e.now);
    OpenIsAdmitted(r.data, e, amount);
    var d := Accrue(r.data, e.now).value;
    var shown := MulNear(r.debt.Of(user), d.borrowIndex);
    MinimumIsExact(d, shown - amount);
    ZeroShows(d.borrowIndex);
    DisplayDividesBack(r.debt.Of(user), d.borrowIndex);
    CompareFloors(amount, shown, d.borrowIndex);
    DebtBurnAccepted(r.debt, user, amount, d.borrowIndex);
  }

  /** A collection is accepted exactly when debt is displayed within supply and, to pay, there is a treasury. */
  lemma CollectAccepted(r: Reserve, now: nat, treasurySet: bool)
    requires Sound(r) && Accrue(r.data, now).Ok?
    requires MulNear(Shares(r.supply), Accrue(r.data, now).value.liquidityIndex) <= U128_MAX
    requires MulNear(Shares(r.debt), Accrue(r.data, now).value.borrowIndex) <= U128_MAX
    ensures var (supplied, owed) := (MulNear(Shares(r.supply), Accrue(r.data, now).value.liquidityIndex),
                                     MulNear(Shares(r.debt), Accrue(r.data, now).value.borrowIndex));
            CollectReserves(r, now, treasurySet).Ok? <==>
              owed <= supplied && (treasurySet || r.cash <= supplied - owed + r.deficit)
  {
    hide Accrue, MulNear;
    TotalIsCount(r.supply);
    TotalIsCount(r.debt);
  }

  /** Whoever holds enough may send it to anyone with room, as long as the account stays healthy. */
  lemma TransferGoesThrough(r: Reserve, e: Env, from: Address, to: Address, amount: nat, index: nat)
    requires CurrentLiquidityIndex(r.data, e.now) == Ok(index) && index > 0
    requires from != to && amount > 0 && e.externalsOk && e.healthOk && (to in r.collateralBits || e.roomOk)
    requires DivUp(amount, index) <= Min(r.supply.Of(from), I128_MAX)
    requires r.supply.Of(to) + DivUp(amount, index) <= I128_MAX
    ensures TransferShares(r, e, from, to, amount).Ok?
  {
    hide CurrentLiquidityIndex, DivUp;
  }

  // ------------------------------------------------------------------ the passage of time

  /** Swaps accrue in memory, and only when the clock has moved. */
  lemma QuietAccrualEffect(d: Data, now: nat)
    ensures now > d.lastUpdate ==> AccrueQuietly(d, now) == Accrue(d, now)
    ensures now <= d.lastUpdate ==> AccrueQuietly(d, now) == Ok(d)
  {
  }

  /**
   Time adds simple interest at the stored supplier rate to the liquidity index, and the compound series at the
   stored borrow rate to the borrow index, each rounded to the nearest unit; the transfer's view of the index is
   the stored one after such an update.
   */
  lemma AccrualEffect(d: Data, now: nat)
    requires Accrue(d, now).Ok?
    ensures now >= d.lastUpdate && Accrue(d, now).value.lastUpdate == now
    ensures CurrentLiquidityIndex(d, now) == Ok(Accrue(d, now).value.liquidityIndex)
    ensures now == d.lastUpdate ==> Accrue(d, now).value == d
    ensures now > d.lastUpdate ==>
              && LinearFactor(d.liquidityRate, d.lastUpdate, now).Ok? && CompoundFactor(d.borrowRate, d.lastUpdate,
                  now).Ok?
              && var (d', t) := (Accrue(d, now).value, now - d.lastUpdate);
                 var (simple, series) := (LinearFactor(d.liquidityRate, d.lastUpdate, now).value - RAY,
                                          CompoundFactor(d.borrowRate, d.lastUpdate, now).value - RAY);
                 && simple * SECONDS_PER_YEAR <= d.liquidityRate * t < simple * SECONDS_PER_YEAR + SECONDS_PER_YEAR
                 && series >= 0
                 && SeriesNumerator(d.borrowRate, t) <= SERIES_DENOMINATOR * series + SeriesError(d.borrowRate, t)
                 && SERIES_DENOMINATOR * series <= SeriesNumerator(d.borrowRate, t) + SeriesError(d.borrowRate, t)
                 && d.liquidityIndex * (RAY + simple) - HALF_RAY < d'.liquidityIndex * RAY
                    <= d.liquidityIndex * (RAY + simple) + HALF_RAY
                 && d.borrowIndex * (RAY + series) - HALF_RAY < d'.borrowIndex * RAY
                    <= d.borrowIndex * (RAY + series) + HALF_RAY
                 && d' == d.(liquidityIndex := d'.liquidityIndex, borrowIndex := d'.borrowIndex, lastUpdate := now)
  {
    if now > d.lastUpdate {
      LinearIsSimple(d.liquidityRate, d.lastUpdate, now);
      CompoundIsSeries(d.borrowRate, d.lastUpdate, now);
      hide LinearFactor, CompoundFactor, SeriesNumerator, SeriesError;
    }
  }
}
