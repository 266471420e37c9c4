/**
 The router's operations on contract storage, step by step: accrue and store the indices, move cash,
 call the token contracts, update the user's flags, recompute the rates. `Invoke` is the host's call
 boundary: a failing operation is rolled back. Every step is held to the functions of Reserves.
 */
module Ledgers {
  import opened Common
  import opened RayMath
  import opened RateStrategy
  import opened Tokens
  import opened Reserves
  import opened Liquidations
  import opened Swaps
  import opened CrossSolvency
  import opened Solvency
  import opened TokenContracts

  class ReserveLedger {
    var data: Data
    const aToken: AToken
    const debtToken: DebtToken
    var cash: nat
    var deficit: nat
    var collateralBits: set<Address>
    var borrowBits: set<Address>

    function View(): Reserve
      reads this, aToken, debtToken
    {
      Reserve(data, aToken.State(), debtToken.State(), cash, deficit, collateralBits, borrowBits)
    }

    constructor (now: nat, config: Config)
      ensures View() == NewReserve(now, config)
      ensures fresh(aToken) && fresh(debtToken)
    {
      data := Data(RAY, RAY, 0, 0, now, config);
      aToken := new AToken();
      debtToken := new DebtToken();
      cash, deficit, collateralBits, borrowBits := 0, 0, {}, {};
    }

    method Restore(v: Reserve)
      modifies this, aToken, debtToken
      ensures View() == v
    {
      data, cash, deficit, collateralBits, borrowBits := v.data, v.cash, v.deficit, v.collateralBits, v.borrowBits;
      aToken.Restore(v.supply);
      debtToken.Restore(v.debt);
    }

    method UpdateState(now: nat) returns (r: Result<()>)
      modifies this`data
      ensures match Accrue(old(data), now)
              case Ok(d) => r.Ok? && data == d
              case Err(e) => r == Err(e) && data == old(data)
    {
      var updated :- Accrue(data, now);
      data := updated;
      return Ok(());
    }

    method UpdateInterestRatesAndStore(params: ValidParams) returns (r: Result<()>)
      modifies this`data
      ensures match RefreshRates(old(View()), params)
              case Ok(v) => r.Ok? && View() == v
              case Err(e) => r == Err(e) && data == old(data)
    {
      var totalSupply :- TotalWithIndex(aToken.State(), data.liquidityIndex);
      var totalDebt :- TotalWithIndex(debtToken.State(), data.borrowIndex);
      var available := 0;
      if totalSupply > totalDebt {
        available := totalSupply - totalDebt;
      }
      var rates :- OrElse(CalculateRates(params, available, totalDebt, data.config.reserveFactor), InvalidAmount);
      data := data.(liquidityRate := rates.liquidity, borrowRate := rates.borrow);
      return Ok(());
    }

    // ---------------------------------------------------------------- bodies, before rollback

    method SupplyStep(e: Env, user: Address, amount: nat) returns (r: Result<()>)
      modifies this, aToken, debtToken
      ensures match SupplyMove(old(View()), e, user, amount)
              case Ok(v) => r.Ok? && View() == v
              case Err(err) => r == Err(err)
    {
      var _ :- CheckOpen(data, e, amount);
      var _ :- Need(!data.config.frozen, AssetFrozen);
      var _ :- UpdateState(e.now);
      var _ :- CheckSupplyCap(aToken.State(), data, amount);
      cash := cash + amount;
      var minted :- aToken.MintScaled(user, amount, data.liquidityIndex);
      var isFirstSupply := minted.0;
      if isFirstSupply && amount < MIN_FIRST_DEPOSIT {
        return Err(InvalidAmount);
      }
      if isFirstSupply {
        if user !in collateralBits && !e.roomOk {
          return Err(MaxUserReservesExceeded);
        }
        collateralBits := collateralBits + {user};
      }
      return Ok(());
    }

    method Supply(e: Env, user: Address, amount: nat) returns (r: Result<()>)
      modifies this, aToken, debtToken
      ensures match Reserves.Supply(old(View()), e, user, amount)
              case Ok(v) => r.Ok? && View() == v
              case Err(err) => r == Err(err)
    {
      var _ :- SupplyStep(e, user, amount);
      var _ :- UpdateInterestRatesAndStore(e.params);
      return Ok(());
    }

    method WithdrawStep(e: Env, user: Address, amount: nat) returns (r: Result<nat>)
      modifies this, aToken, debtToken
      ensures match WithdrawMove(old(View()), e, user, amount)
              case Ok(v) => r == Ok(v.1) && View() == v.0
              case Err(err) => r == Err(err)
    {
      var _ :- CheckOpen(data, e, amount);
      var _ :- UpdateState(e.now);
      var userBalance :- BalanceWithIndex(aToken.State(), user, data.liquidityIndex);
      var amountToWithdraw := amount;
      if amount == U128_MAX {
        amountToWithdraw := userBalance;
      }
      if userBalance < amountToWithdraw {
        return Err(InsufficientCollateral);
      }
      var totalSupply :- TotalWithIndex(aToken.State(), data.liquidityIndex);
      if totalSupply < amountToWithdraw || cash < amountToWithdraw {
        return Err(InsufficientLiquidity);
      }
      var _ :- Need(user !in collateralBits || e.healthOk, HealthFactorTooLow);
      var _ :- aToken.BurnScaled(user, amountToWithdraw, data.liquidityIndex);
      cash := cash - amountToWithdraw;
      if userBalance - amountToWithdraw == 0 {
        collateralBits := collateralBits - {user};
      }
      return Ok(amountToWithdraw);
    }

    method Withdraw(e: Env, user: Address, amount: nat) returns (r: Result<nat>)
      modifies this, aToken, debtToken
      ensures match Reserves.Withdraw(old(View()), e, user, amount)
              case Ok(v) => r == Ok(v.1) && View() == v.0
              case Err(err) => r == Err(err)
    {
      var withdrawn :- WithdrawStep(e, user, amount);
      var _ :- UpdateInterestRatesAndStore(e.params);
      return Ok(withdrawn);
    }

    method BorrowStep(e: Env, user: Address, amount: nat) returns (r: Result<()>)
      modifies this, aToken, debtToken
      ensures match BorrowMove(old(View()), e, user, amount)
              case Ok(v) => r.Ok? && View() == v
              case Err(err) => r == Err(err)
    {
      var _ :- CheckOpen(data, e, amount);
      var _ :- Need(!data.config.frozen, AssetFrozen);
      var _ :- Need(data.config.borrowingEnabled, BorrowingNotEnabled);
      var _ :- UpdateState(e.now);
      var _ :- CheckBorrowCap(debtToken.State(), data, amount);
      var _ :- Need(e.healthOk, HealthFactorTooLow);
      if cash < amount {
        return Err(InsufficientLiquidity);
      }
      var _ :- debtToken.MintScaled(user, amount, data.borrowIndex);
      var _ :- CheckDebtAfterBorrow(debtToken.State(), data, user);
      cash := cash - amount;
      if user !in borrowBits && !e.roomOk {
        return Err(MaxUserReservesExceeded);
      }
      borrowBits := borrowBits + {user};
      return Ok(());
    }

    method Borrow(e: Env, user: Address, amount: nat) returns (r: Result<()>)
      modifies this, aToken, debtToken
      ensures match Reserves.Borrow(old(View()), e, user, amount)
              case Ok(v) => r.Ok? && View() == v
              case Err(err) => r == Err(err)
    {
      var _ :- BorrowStep(e, user, amount);
      var _ :- UpdateInterestRatesAndStore(e.params);
      return Ok(());
    }

    method RepayStep(e: Env, user: Address, amount: nat) returns (r: Result<nat>)
      modifies this, aToken, debtToken
      ensures match RepayMove(old(View()), e, user, amount)
              case Ok(v) => r == Ok(v.1) && View() == v.0
              case Err(err) => r == Err(err)
    {
      var _ :- CheckOpen(data, e, amount);
      var _ :- UpdateState(e.now);
      var debtBalance :- BalanceWithIndex(debtToken.State(), user, data.borrowIndex);
      if debtBalance == 0 {
        return Err(NoDebtOfRequestedType);
      }
      var amountToRepay :- RepayAmount(data, amount, debtBalance);
      cash := cash + amountToRepay;
      var _ :- debtToken.BurnScaled(user, amountToRepay, data.borrowIndex);
      if debtBalance - amountToRepay == 0 {
        borrowBits := borrowBits - {user};
      }
      return Ok(amountToRepay);
    }

    method Repay(e: Env, user: Address, amount: nat) returns (r: Result<nat>)
      modifies this, aToken, debtToken
      ensures match Reserves.Repay(old(View()), e, user, amount)
              case Ok(v) => r == Ok(v.1) && View() == v.0
              case Err(err) => r == Err(err)
    {
      var repaid :- RepayStep(e, user, amount);
      var _ :- UpdateInterestRatesAndStore(e.params);
      return Ok(repaid);
    }

    /** The bits are synchronised between computing the new balances and the end of the transfer. */
    method TransferShares(e: Env, from: Address, to: Address, amount: nat) returns (r: Result<()>)
      modifies this, aToken, debtToken
      ensures match Reserves.TransferShares(old(View()), e, from, to, amount)
              case Ok(v) => r.Ok? && View() == v
              case Err(err) => r == Err(err)
    {
      if amount == 0 {
        return Err(InvalidAmount);
      }
      if from == to {
        return Ok(());
      }
      var _ :- Need(e.externalsOk, ExternalCallFailed);
      var index :- CurrentLiquidityIndex(data, e.now);
      var _ :- aToken.TransferInternal(from, to, amount, index);
      var _ :- Need(e.healthOk, HealthFactorTooLow);
      var toHeld := aToken.State().Of(to);
      if aToken.State().Of(from) == 0 {
        collateralBits := collateralBits - {from};
      }
      if toHeld > 0 {
        if to !in collateralBits {
          var _ :- Need(e.roomOk, MaxUserReservesExceeded);
          collateralBits := collateralBits + {to};
        }
      }
      return Ok(());
    }

    /** Dropping the flag is tried first and taken back when the account without it is not healthy. */
    method SetUserUseReserveAsColl(externalsOk: bool, healthOk: bool, user: Address, on: bool) returns (r: Result<()>)
      modifies this
      ensures match SetCollateralFlag(old(View()), externalsOk, healthOk, user, on)
              case Ok(v) => r.Ok? && View() == v
              case Err(err) => r == Err(err)
    {
      var _ :- Need(externalsOk, ExternalCallFailed);
      var _ :- Need(data.config.active, AssetNotActive);
      if on {
        collateralBits := collateralBits + {user};
      } else {
        collateralBits := collateralBits - {user};
        if !healthOk {
          collateralBits := collateralBits + {user};
          return Err(InvalidLiquidation);
        }
      }
      return Ok(());
    }

    method CoverDeficit(externalsOk: bool, amount: nat) returns (r: Result<nat>)
      modifies this
      ensures match Reserves.CoverDeficit(old(View()), externalsOk, amount)
              case Ok(v) => r == Ok(v.1) && View() == v.0
              case Err(err) => r == Err(err)
    {
      if amount == 0 || deficit == 0 {
        return Err(InvalidAmount);
      }
      var cover := amount;
      if deficit < cover {
        cover := deficit;
      }
      var _ :- Need(externalsOk, ExternalCallFailed);
      cash := cash + cover;
      deficit := deficit - cover;
      return Ok(cover);
    }

    method CollectProtocolReserves(now: nat, treasurySet: bool) returns (r: Result<nat>)
      modifies this
      ensures match CollectReserves(old(View()), now, treasurySet)
              case Ok(v) => r == Ok(v.1) && View() == v.0
              case Err(err) => r == Err(err)
    {
      var _ :- UpdateState(now);
      var totalSupply :- TotalWithIndex(aToken.State(), data.liquidityIndex);
      var totalBorrow :- TotalWithIndex(debtToken.State(), data.borrowIndex);
      if totalBorrow > totalSupply {
        return Err(InvalidAmount);
      }
      var availableLiquidity := totalSupply - totalBorrow;
      if cash <= availableLiquidity {
        return Ok(0);
      }
      var collectible := 0;
      if cash - availableLiquidity > deficit {
        collectible := cash - availableLiquidity - deficit;
      }
      if collectible == 0 {
        return Ok(0);
      }
      var _ :- Need(treasurySet, TreasuryNotSet);
      cash := cash - collectible;
      return Ok(collectible);
    }

    // ---------------------------------------------------------------- the call boundary

    method Dispatch(op: Op) returns (r: Result<()>)
      modifies this, aToken, debtToken
      ensures match Apply(old(View()), op)
              case Ok(v) => r.Ok? && View() == v
              case Err(err) => r == Err(err)
    {
      match op
      case SupplyOp(e, user, amount) => r := Supply(e, user, amount);
      case WithdrawOp(e, user, amount) => var _ :- Withdraw(e, user, amount); r := Ok(());
      case BorrowOp(e, user, amount) => r := Borrow(e, user, amount);
      case RepayOp(e, user, amount) => var _ :- Repay(e, user, amount); r := Ok(());
      case TransferOp(e, from, to, amount) => r := TransferShares(e, from, to, amount);
      case FlagOp(ok, healthOk, user, on) => r := SetUserUseReserveAsColl(ok, healthOk, user, on);
      case CoverOp(ok, amount) => var _ :- CoverDeficit(ok, amount); r := Ok(());
      case CollectOp(now, treasurySet) => var _ :- CollectProtocolReserves(now, treasurySet); r := Ok(());
      case PokeOp(now) => r := UpdateState(now);
      case ConfigureOp(config) => data := data.(config := config); r := Ok(());
      case DonateOp(amount) => cash := cash + amount; r := Ok(());
    }

    /** One call as the host runs it: storage ends as the operation's result says, or untouched. */
    method Invoke(op: Op) returns (r: Result<()>)
      modifies this, aToken, debtToken
      ensures match Apply(old(View()), op)
              case Ok(v) => r.Ok? && View() == v
              case Err(err) => r == Err(err) && View() == old(View())
    {
      var before := View();
      r := Dispatch(op);
      if r.Err? {
        Restore(before);
      }
    }
  }

  // ------------------------------------------------------------------ liquidation_call

  /** The debt reserve's part, on accrued indices: payment, burn, and the write-off of bad debt. */
  method SettleDebtStep(debt: ReserveLedger, user: Address, plan: Plan) returns (r: Result<()>)
    modifies debt, debt.debtToken
    ensures match SettleDebt(old(debt.View()), user, plan)
            case Ok(v) => r.Ok? && debt.View() == v
            case Err(err) => r == Err(err)
  {
    var _ :- FitSigned(plan.cover);
    debt.cash := debt.cash + plan.cover;
    var burn := debt.debtToken.BurnScaled(user, plan.cover, debt.data.borrowIndex);
    if burn.Err? {
      return Err(InsufficientCollateral);
    }
    var remaining := plan.debtBalance - plan.cover;
    if remaining > 0 {
      if plan.capped {
        var badDebtBurn := debt.debtToken.BurnScaled(user, remaining, debt.data.borrowIndex);
        if badDebtBurn.Err? {
          return Err(InsufficientCollateral);
        }
        var deficit :- Fit(debt.deficit + remaining);
        debt.deficit := deficit;
        remaining := 0;
      } else {
        var _ :- CheckMinDebt(debt.data, remaining, LeavesTooLittleDebt);
      }
    }
    if remaining == 0 {
      debt.borrowBits := debt.borrowBits - {user};
    }
    return Ok(());
  }

  /** Shares to the liquidator and the treasury, in that order. */
  method SeizeSharesStep(
      coll: ReserveLedger, e: LiquidationEnv, user: Address, liquidator: Address, net: nat, fee: nat)
    returns (r: Result<nat>)
    modifies coll, coll.aToken
    ensures match SeizeAsShares(old(coll.View()), e, user, liquidator, net, fee)
            case Ok(v) => r == Ok(v.1) && coll.View() == v.0
            case Err(err) => r == Err(err)
  {
    hide TransferOnLiquidation;
    var transfer := coll.aToken.TransferOnLiquidation(user, liquidator, net, coll.data.liquidityIndex);
    if transfer.Err? {
      return Err(InsufficientCollateral);
    }
    if transfer.value {
      if liquidator !in coll.collateralBits {
        var _ :- Need(e.liquidatorRoom, InvalidLiquidation);
        coll.collateralBits := coll.collateralBits + {liquidator};
      }
    }
    var removed := net;
    if fee > 0 {
      if e.treasury.Some? {
        var treasury := e.treasury.value;
        var feeTransfer := coll.aToken.TransferOnLiquidation(user, treasury, fee, coll.data.liquidityIndex);
        if feeTransfer.Err? {
          return Err(InsufficientCollateral);
        }
        if feeTransfer.value && treasury !in coll.collateralBits && e.treasuryRoom {
          coll.collateralBits := coll.collateralBits + {treasury};
        }
        removed := net + fee;
      }
    }
    return Ok(removed);
  }

  /** Shares burned, cash to the treasury and the liquidator. */
  method SeizeCashStep(coll: ReserveLedger, e: LiquidationEnv, user: Address, net: nat, fee: nat)
    returns (r: Result<nat>)
    modifies coll, coll.aToken
    ensures match SeizeAsCash(old(coll.View()), e, user, net, fee)
            case Ok(v) => r == Ok(v.1) && coll.View() == v.0
            case Err(err) => r == Err(err)
  {
    var burn := coll.aToken.BurnScaled(user, net + fee, coll.data.liquidityIndex);
    if burn.Err? {
      return Err(InsufficientCollateral);
    }
    if fee > 0 && e.treasury.Some? {
      var _ :- Need(fee <= coll.cash, InsufficientLiquidity);
      coll.cash := coll.cash - fee;
    }
    var _ :- Need(net <= coll.cash, InsufficientLiquidity);
    coll.cash := coll.cash - net;
    return Ok(net + fee);
  }

  method SettleCollateralStep(
      coll: ReserveLedger, e: LiquidationEnv, user: Address, liquidator: Address, plan: Plan, fee: nat, asShares: bool)
    returns (r: Result<nat>)
    requires fee <= plan.seized
    modifies coll, coll.aToken
    ensures match SettleCollateral(old(coll.View()), e, user, liquidator, plan, fee, asShares)
            case Ok(v) => r == Ok(v.1) && coll.View() == v.0
            case Err(err) => r == Err(err)
  {
    hide SeizeAsShares, SeizeAsCash;
    var removed;
    if asShares {
      removed :- SeizeSharesStep(coll, e, user, liquidator, plan.seized - fee, fee);
    } else {
      removed :- SeizeCashStep(coll, e, user, plan.seized - fee, fee);
    }
    if removed > plan.collateralBalance {
      return Err(InsufficientCollateral);
    }
    var remaining := plan.collateralBalance - removed;
    if remaining == 0 {
      coll.collateralBits := coll.collateralBits - {user};
    }
    return Ok(remaining);
  }

  method SettleBothStep(
      debt: ReserveLedger, coll: ReserveLedger, e: LiquidationEnv, liquidator: Address, user: Address, plan: Plan,
      asShares: bool) returns (r: Result<()>)
    requires debt != coll && debt.aToken != coll.aToken && debt.debtToken != coll.debtToken
    modifies debt, debt.debtToken, coll, coll.aToken
    ensures match SettleBoth(old(Pair(debt.View(), coll.View())), e, liquidator, user, plan, asShares)
            case Ok(v) => r.Ok? && Pair(debt.View(), coll.View()) == v
            case Err(err) => r == Err(err)
  {
    var debtPow :- DecimalsPow(debt.data);
    var collateralPow :- DecimalsPow(coll.data);
    if e.collateralPrice == 0 {
      return Err(PriceOracleNotFound);
    }
    var _ :- SettleDebtStep(debt, user, plan);
    var fee :- FeeInCollateral(plan, e, debtPow, collateralPow);
    var collateralLeft :- SettleCollateralStep(coll, e, user, liquidator, plan, fee, asShares);
    var debtLeft := 0;
    if !plan.capped && plan.debtBalance > plan.cover {
      debtLeft := plan.debtBalance - plan.cover;
    }
    var _ :- CheckLeftovers(debtLeft, collateralLeft, e, debtPow, collateralPow);
    return Ok(());
  }

  method LiquidationBody(
      debt: ReserveLedger, coll: ReserveLedger, e: LiquidationEnv, liquidator: Address, user: Address, cover: nat,
      asShares: bool) returns (r: Result<()>)
    requires debt != coll && debt.aToken != coll.aToken && debt.debtToken != coll.debtToken
    modifies debt, debt.debtToken, coll, coll.aToken
    ensures match LiquidationCall(old(Pair(debt.View(), coll.View())), e, liquidator, user, cover, asShares)
            case Ok(v) => r.Ok? && Pair(debt.View(), coll.View()) == v
            case Err(err) => r == Err(err)
  {
    var debtData :- Accrue(debt.data, e.now);
    var collateralData :- Accrue(coll.data, e.now);
    debt.data, coll.data := debtData, collateralData;
    var plan :- MakePlan(debt.View(), coll.View(), e, user, cover);
    var _ :- SettleBothStep(debt, coll, e, liquidator, user, plan, asShares);
    var _ :- debt.UpdateInterestRatesAndStore(e.debtParams);
    var _ :- coll.UpdateInterestRatesAndStore(e.collateralParams);
    return Ok(());
  }

  /** liquidation_call as the host runs it, on two different reserves. */
  method InvokeLiquidation(
      debt: ReserveLedger, coll: ReserveLedger, e: LiquidationEnv, liquidator: Address, user: Address, cover: nat,
      asShares: bool) returns (r: Result<()>)
    requires debt != coll && debt.aToken != coll.aToken && debt.debtToken != coll.debtToken
    modifies debt, debt.aToken, debt.debtToken, coll, coll.aToken, coll.debtToken
    ensures match LiquidationCall(old(Pair(debt.View(), coll.View())), e, liquidator, user, cover, asShares)
            case Ok(v) => r.Ok? && Pair(debt.View(), coll.View()) == v
            case Err(err) => r == Err(err) && Pair(debt.View(), coll.View()) == old(Pair(debt.View(), coll.View()))
  {
    var debtBefore, collateralBefore := debt.View(), coll.View();
    r := LiquidationBody(debt, coll, e, liquidator, user, cover, asShares);
    if r.Err? {
      debt.Restore(debtBefore);
      coll.Restore(collateralBefore);
    }
  }

  // ------------------------------------------------------------------ the prepared liquidation

  /** The callback's debt burn, the write-off, and the flag, which follows the remaining shares. */
  method FlashDebtStep(debt: ReserveLedger, user: Address, cover: nat, capped: bool) returns (r: Result<nat>)
    modifies debt, debt.debtToken
    ensures match FlashSettleDebt(old(debt.View()), user, cover, capped)
            case Ok(v) => r == Ok(v.1) && debt.View() == v.0
            case Err(err) => r == Err(err)
  {
    var burn :- debt.debtToken.BurnScaled(user, cover, debt.data.borrowIndex);
    var actual :- RayMul(burn.2, debt.data.borrowIndex);
    var remaining :- FitSigned(actual);
    if capped && remaining > 0 {
      var badDebtBurn := debt.debtToken.BurnScaled(user, remaining, debt.data.borrowIndex);
      if badDebtBurn.Err? {
        return Err(InsufficientCollateral);
      }
      var deficit :- Fit(debt.deficit + remaining);
      debt.deficit := deficit;
      remaining := 0;
    } else if remaining > 0 {
      var _ :- CheckMinDebt(debt.data, remaining, InvalidLiquidation);
    }
    if remaining == 0 {
      debt.borrowBits := debt.borrowBits - {user};
    }
    return Ok(remaining);
  }

  method FlashCollateralStep(coll: ReserveLedger, user: Address, seized: nat) returns (r: Result<nat>)
    modifies coll, coll.aToken
    ensures match FlashSettleCollateral(old(coll.View()), user, seized)
            case Ok(v) => r == Ok(v.1) && coll.View() == v.0
            case Err(err) => r == Err(err)
  {
    var paid :- coll.aToken.BurnScaledAndTransferTo(user, seized, coll.data.liquidityIndex);
    var _ :- Need(paid.2 <= coll.cash, InsufficientLiquidity);
    coll.cash := coll.cash - paid.2;
    var actual :- RayMul(paid.0, coll.data.liquidityIndex);
    var remaining :- FitSigned(actual);
    if remaining == 0 {
      coll.collateralBits := coll.collateralBits - {user};
    }
    return Ok(remaining);
  }

  /** The callback and the bookkeeping after it, on reserves already accrued. */
  method FlashMovesStep(debt: ReserveLedger, coll: ReserveLedger, e: LiquidationEnv, user: Address, auth: Authorization)
    returns (r: Result<()>)
    requires debt != coll && debt.aToken != coll.aToken && debt.debtToken != coll.debtToken
    modifies debt, debt.debtToken, coll, coll.aToken
    ensures match FlashMoves(old(Pair(debt.View(), coll.View())), e, user, auth)
            case Ok(v) => r.Ok? && Pair(debt.View(), coll.View()) == v.0
            case Err(err) => r == Err(err)
  {
    hide FlashSettleDebt, FlashSettleCollateral, FlashPlan, CheckLeftovers, DecimalsPow;
    var plan :- FlashPlan(Pair(debt.View(), coll.View()), e, user, auth);
    var debtPow :- DecimalsPow(debt.data);
    var collateralPow :- DecimalsPow(coll.data);
    var debtLeft :- FlashDebtStep(debt, user, plan.cover, plan.capped);
    var collateralLeft :- FlashCollateralStep(coll, user, plan.seized);
    var _ :- CheckLeftovers(debtLeft, collateralLeft, e, debtPow, collateralPow);
    return Ok(());
  }

  method ExecuteBody(debt: ReserveLedger, coll: ReserveLedger, e: LiquidationEnv, user: Address, auth: Authorization)
    returns (r: Result<()>)
    requires debt != coll && debt.aToken != coll.aToken && debt.debtToken != coll.debtToken
    modifies debt, debt.debtToken, coll, coll.aToken
    ensures match ExecuteLiquidation(old(Pair(debt.View(), coll.View())), e, user, auth)
            case Ok(v) => r.Ok? && Pair(debt.View(), coll.View()) == v
            case Err(err) => r == Err(err)
  {
    hide FlashMoves;
    var debtData :- Accrue(debt.data, e.now);
    var collateralData :- Accrue(coll.data, e.now);
    debt.data, coll.data := debtData, collateralData;
    var _ :- FlashMovesStep(debt, coll, e, user, auth);
    var _ :- debt.UpdateInterestRatesAndStore(e.debtParams);
    var _ :- coll.UpdateInterestRatesAndStore(e.collateralParams);
    return Ok(());
  }

  /** The same steps on one reserve, and the check that its aToken holds its starting balance again. */
  method ExecuteOneBody(one: ReserveLedger, e: LiquidationEnv, user: Address, auth: Authorization)
    returns (r: Result<()>)
    modifies one, one.aToken, one.debtToken
    ensures match ExecuteOnOne(old(one.View()), e, user, auth)
            case Ok(v) => r.Ok? && one.View() == v
            case Err(err) => r == Err(err)
  {
    hide FlashPlan, FlashSettleDebt, FlashSettleCollateral;
    var data :- Accrue(one.data, e.now);
    one.data := data;
    var starting := one.cash;
    var plan :- FlashPlan(Pair(one.View(), one.View()), e, user, auth);
    var _ :- FlashDebtStep(one, user, plan.cover, plan.capped);
    var _ :- FlashCollateralStep(one, user, plan.seized);
    var _ :- Need(one.cash >= starting, FlashLoanNotRepaid);
    var _ :- one.UpdateInterestRatesAndStore(e.debtParams);
    return Ok(());
  }

  /** execute_liquidation as the host runs it. On one sound reserve in both roles it always fails. */
  method InvokeExecution(debt: ReserveLedger, coll: ReserveLedger, e: LiquidationEnv, user: Address,
      auth: Authorization)
    returns (r: Result<()>)
    requires debt == coll || (debt != coll && debt.aToken != coll.aToken && debt.debtToken != coll.debtToken)
    modifies debt, debt.aToken, debt.debtToken, coll, coll.aToken, coll.debtToken
    ensures debt != coll ==>
              match ExecuteLiquidation(old(Pair(debt.View(), coll.View())), e, user, auth)
              case Ok(v) => r.Ok? && Pair(debt.View(), coll.View()) == v
              case Err(err) => r == Err(err) && Pair(debt.View(), coll.View()) == old(Pair(debt.View(), coll.View()))
    ensures debt == coll ==>
              match ExecuteOnOne(old(debt.View()), e, user, auth)
              case Ok(v) => r.Ok? && debt.View() == v
              case Err(err) => r == Err(err) && debt.View() == old(debt.View())
    ensures debt == coll && Sound(old(debt.View())) ==> r.Err?
  {
    hide ExecuteLiquidation, ExecuteOnOne, Sound;
    var debtBefore, collateralBefore := debt.View(), coll.View();
    if debt == coll {
      if Sound(debtBefore) {
        OneAssetNeverExecutes(debtBefore, e, user, auth);
      }
      r := ExecuteOneBody(debt, e, user, auth);
    } else {
      r := ExecuteBody(debt, coll, e, user, auth);
    }
    if r.Err? {
      debt.Restore(debtBefore);
      coll.Restore(collateralBefore);
    }
  }

  // ------------------------------------------------------------------ swap_collateral

  method SellStep(from: ReserveLedger, user: Address, amount: nat) returns (r: Result<nat>)
    modifies from, from.aToken
    ensures match SellMove(old(from.View()), user, amount)
            case Ok(v) => r == Ok(v.1) && from.View() == v.0
            case Err(err) => r == Err(err)
  {
    var want :- SwapAmount(from.View(), user, amount);
    var paid :- from.aToken.BurnScaledAndTransferTo(user, want, from.data.liquidityIndex);
    var _ :- Need(paid.2 <= from.cash, ExternalCallFailed);
    from.cash := from.cash - paid.2;
    if paid.0 == 0 {
      from.collateralBits := from.collateralBits - {user};
    }
    return Ok(paid.2);
  }

  method BuyStep(to: ReserveLedger, e: SwapEnv, user: Address, minOut: nat) returns (r: Result<()>)
    modifies to, to.aToken
    ensures match BuyMove(old(to.View()), e, user, minOut)
            case Ok(v) => r.Ok? && to.View() == v
            case Err(err) => r == Err(err)
  {
    if e.received < minOut {
      return Err(InsufficientSwapOut);
    }
    var fee :- PercentMul(e.received, e.feeBps);
    if e.received <= fee {
      return Err(MathOverflow);
    }
    var amountToSupply := e.received - fee;
    var _ :- CheckSupplyCap(to.aToken.State(), to.data, amountToSupply);
    to.cash := to.cash + amountToSupply;
    var _ :- to.aToken.MintScaled(user, amountToSupply, to.data.liquidityIndex);
    to.collateralBits := to.collateralBits + {user};
    return Ok(());
  }

  method SwapBody(from: ReserveLedger, to: ReserveLedger, e: SwapEnv, user: Address, amount: nat, minOut: nat)
    returns (r: Result<()>)
    requires from != to && from.aToken != to.aToken && from.debtToken != to.debtToken
    modifies from, from.aToken, to, to.aToken
    ensures match SwapCollateral(old(from.View()), old(to.View()), e, user, amount, minOut)
            case Ok(v) => r.Ok? && (from.View(), to.View()) == v
            case Err(err) => r == Err(err)
  {
    var _ :- CheckSwap(from.data, to.data, e, amount, minOut);
    var fromData :- AccrueQuietly(from.data, e.now);
    var toData :- AccrueQuietly(to.data, e.now);
    from.data, to.data := fromData, toData;
    var _ :- SellStep(from, user, amount);
    var _ :- BuyStep(to, e, user, minOut);
    var _ :- Need(e.healthOk, InvalidLiquidation);
    var _ :- from.UpdateInterestRatesAndStore(e.fromParams);
    var _ :- to.UpdateInterestRatesAndStore(e.toParams);
    return Ok(());
  }

  /** swap_collateral as the host runs it, on two different reserves. */
  method InvokeSwap(from: ReserveLedger, to: ReserveLedger, e: SwapEnv, user: Address, amount: nat, minOut: nat)
    returns (r: Result<()>)
    requires from != to && from.aToken != to.aToken && from.debtToken != to.debtToken
    modifies from, from.aToken, from.debtToken, to, to.aToken, to.debtToken
    ensures match SwapCollateral(old(from.View()), old(to.View()), e, user, amount, minOut)
            case Ok(v) => r.Ok? && (from.View(), to.View()) == v
            case Err(err) => r == Err(err) && from.View() == old(from.View()) && to.View() == old(to.View())
  {
    var fromBefore, toBefore := from.View(), to.View();
    r := SwapBody(from, to, e, user, amount, minOut);
    if r.Err? {
      from.Restore(fromBefore);
      to.Restore(toBefore);
    }
  }
}
