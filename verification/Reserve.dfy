/**
 One reserve of the pool and the router operations on it, as functions on its stored state. An
 operation that fails leaves no trace, because the host rolls it back; so each is a Result.
 */
module Reserves {
  import opened Common
  import opened RayMath
  import opened Interest
  import opened RateStrategy
  import opened Tokens

  const MIN_FIRST_DEPOSIT: nat := 1_000

  /** Strategy storage only ever holds validated parameters. */
  type ValidParams = p: Params | ValidateParams(p).Ok? witness Params(0, 1, 1, 1)

  /** The configuration a reserve's operations read. Caps, ceiling and minimum are in whole tokens. */
  datatype Config = Config(
    active: bool, frozen: bool, paused: bool, borrowingEnabled: bool, decimals: nat, reserveFactor: nat,
    liquidationBonus: nat, minRemainingDebt: nat, supplyCap: nat, borrowCap: nat, debtCeiling: nat)

  datatype Data = Data(
    liquidityIndex: nat, borrowIndex: nat, liquidityRate: nat, borrowRate: nat, lastUpdate: nat, config: Config)

  /** `cash` is what the aToken contract holds; the bits are this reserve's pair of flags, user by user. */
  datatype Reserve = Reserve(
    data: Data, supply: Scaled, debt: Scaled, cash: nat, deficit: nat,
    collateralBits: set<Address>, borrowBits: set<Address>)

  /**
   What one call meets outside the ledger: the ledger time, the strategy parameters, and whether access
   lists, oracle and underlying token (`externalsOk`), the account's health check (`healthOk`) and the
   per-user reserve limit (`roomOk`) let it through.
   */
  datatype Env = Env(
    now: nat, params: ValidParams, poolPaused: bool, externalsOk: bool, healthOk: bool, roomOk: bool)

  function NewReserve(now: nat, config: Config): Reserve {
    var empty := Scaled(map[], 0);
    Reserve(Data(RAY, RAY, 0, 0, now, config), empty, empty, 0, 0, {}, {})
  }

  function Pow10(n: nat): nat {
    if n == 0 then 1 else 10 * Pow10(n - 1)
  }

  /** A whole-token limit in the asset's smallest units. */
  function InUnits(whole: nat, decimals: nat): Result<nat> {
    var pow :- Fit(Pow10(decimals));
    Fit(whole * pow)
  }

  // ------------------------------------------------------------------ indices and rates

  /** Bring both indices up to date; a clock behind the last update is refused. */
  function Accrue(d: Data, now: nat): Result<Data> {
    if now < d.lastUpdate then Err(MathOverflow)
    else if now == d.lastUpdate then Ok(d)
    else
      var linear :- LinearFactor(d.liquidityRate, d.lastUpdate, now);
      var compound :- CompoundFactor(d.borrowRate, d.lastUpdate, now);
      var liquidityIndex :- RayMul(d.liquidityIndex, linear);
      var borrowIndex :- RayMul(d.borrowIndex, compound);
      Ok(d.(liquidityIndex := liquidityIndex, borrowIndex := borrowIndex, lastUpdate := now))
  }

  /** The in-memory variant used by swaps: a clock behind the last update changes nothing. */
  function AccrueQuietly(d: Data, now: nat): Result<Data> {
    if now <= d.lastUpdate then Ok(d) else Accrue(d, now)
  }

  /** The liquidity index at `now`, computed without storing it. */
  function CurrentLiquidityIndex(d: Data, now: nat): Result<nat> {
    if now < d.lastUpdate then Err(MathOverflow)
    else if now == d.lastUpdate then Ok(d.liquidityIndex)
    else
      var linear :- LinearFactor(d.liquidityRate, d.lastUpdate, now);
      RayMul(d.liquidityIndex, linear)
  }

  /** Recompute the rates from the displayed totals after an operation moved them. */
  function RefreshRates(r: Reserve, params: ValidParams): Result<Reserve> {
    var supply :- TotalWithIndex(r.supply, r.data.liquidityIndex);
    var debt :- TotalWithIndex(r.debt, r.data.borrowIndex);
    var available := if supply > debt then supply - debt else 0;
    var rates :- OrElse(CalculateRates(params, available, debt, r.data.config.reserveFactor), InvalidAmount);
    Ok(r.(data := r.data.(liquidityRate := rates.liquidity, borrowRate := rates.borrow)))
  }

  // ------------------------------------------------------------------ limits

  function CheckSupplyCap(supply: Scaled, d: Data, amount: nat): Result<()> {
    if d.config.supplyCap == 0 then Ok(())
    else
      var current :- TotalWithIndex(supply, d.liquidityIndex);
      var cap :- InUnits(d.config.supplyCap, d.config.decimals);
      var total :- Fit(current + amount);
      Need(total <= cap, SupplyCapExceeded)
  }

  function CheckBorrowCap(debt: Scaled, d: Data, amount: nat): Result<()> {
    if d.config.borrowCap == 0 && d.config.debtCeiling == 0 then Ok(())
    else
      var current :- TotalWithIndex(debt, d.borrowIndex);
      var total :- Fit(current + amount);
      var cap :- InUnits(d.config.borrowCap, d.config.decimals);
      var ceiling :- InUnits(d.config.debtCeiling, d.config.decimals);
      var _ :- Need(d.config.borrowCap == 0 || total <= cap, BorrowCapExceeded);
      Need(d.config.debtCeiling == 0 || total <= ceiling, DebtCeilingExceeded)
  }

  /** A remaining or new debt below the configured minimum is refused; zero means no minimum. */
  function CheckMinDebt(d: Data, owed: nat, error: Error): Result<()> {
    if d.config.minRemainingDebt == 0 then Ok(())
    else
      var least :- InUnits(d.config.minRemainingDebt, d.config.decimals);
      Need(owed >= least, error)
  }

  /** The displayed debt is only read when a minimum is configured. */
  function CheckDebtAfterBorrow(debt: Scaled, d: Data, user: Address): Result<()> {
    if d.config.minRemainingDebt == 0 then Ok(())
    else
      var shown :- BalanceWithIndex(debt, user, d.borrowIndex);
      CheckMinDebt(d, shown, InvalidAmount)
  }

  function CheckOpen(d: Data, e: Env, amount: nat): Result<()> {
    var _ :- Need(e.externalsOk, ExternalCallFailed);
    var _ :- Need(!e.poolPaused, AssetPaused);
    var _ :- Need(amount > 0, InvalidAmount);
    var _ :- Need(d.config.active, AssetNotActive);
    Need(!d.config.paused, AssetPaused)
  }

  // ------------------------------------------------------------------ operations
  //
  // Each of the four user operations is a ledger move at up-to-date indices followed by a rate refresh.

  function SupplyMove(r: Reserve, e: Env, user: Address, amount: nat): Result<Reserve> {
    var _ :- CheckOpen(r.data, e, amount);
    var _ :- Need(!r.data.config.frozen, AssetFrozen);
    var data :- Accrue(r.data, e.now);
    var _ :- CheckSupplyCap(r.supply, data, amount);
    var minted :- ATokenMint(r.supply, user, amount, data.liquidityIndex);
    var _ :- Need(!minted.first || amount >= MIN_FIRST_DEPOSIT, InvalidAmount);
    var _ :- Need(!minted.first || user in r.collateralBits || e.roomOk, MaxUserReservesExceeded);
    var bits := if minted.first then r.collateralBits + {user} else r.collateralBits;
    Ok(r.(data := data, supply := minted.state, cash := r.cash + amount, collateralBits := bits))
  }

  function Supply(r: Reserve, e: Env, user: Address, amount: nat): Result<Reserve> {
    var moved :- SupplyMove(r, e, user, amount);
    RefreshRates(moved, e.params)
  }

  /** Returns the new state and the amount paid out; U128_MAX asks for the whole displayed balance. */
  function WithdrawMove(r: Reserve, e: Env, user: Address, amount: nat): Result<(Reserve, nat)> {
    var _ :- CheckOpen(r.data, e, amount);
    var data :- Accrue(r.data, e.now);
    var shown :- BalanceWithIndex(r.supply, user, data.liquidityIndex);
    var want := if amount == U128_MAX then shown else amount;
    var _ :- Need(want <= shown, InsufficientCollateral);
    var total :- TotalWithIndex(r.supply, data.liquidityIndex);
    var _ :- Need(want <= total, InsufficientLiquidity);
    var _ :- Need(want <= r.cash, InsufficientLiquidity);
    var _ :- Need(user !in r.collateralBits || e.healthOk, HealthFactorTooLow);
    var burned :- ATokenBurn(r.supply, user, want, data.liquidityIndex);
    var bits := if shown == want then r.collateralBits - {user} else r.collateralBits;
    Ok((r.(data := data, supply := burned.state, cash := r.cash - want, collateralBits := bits), want))
  }

  function Withdraw(r: Reserve, e: Env, user: Address, amount: nat): Result<(Reserve, nat)> {
    var moved :- WithdrawMove(r, e, user, amount);
    var done :- RefreshRates(moved.0, e.params);
    Ok((done, moved.1))
  }

  function BorrowMove(r: Reserve, e: Env, user: Address, amount: nat): Result<Reserve> {
    var _ :- CheckOpen(r.data, e, amount);
    var _ :- Need(!r.data.config.frozen, AssetFrozen);
    var _ :- Need(r.data.config.borrowingEnabled, BorrowingNotEnabled);
    var data :- Accrue(r.data, e.now);
    var _ :- CheckBorrowCap(r.debt, data, amount);
    var _ :- Need(e.healthOk, HealthFactorTooLow);
    var _ :- Need(amount <= r.cash, InsufficientLiquidity);
    var minted :- DebtMint(r.debt, user, amount, data.borrowIndex);
    var _ :- CheckDebtAfterBorrow(minted.state, data, user);
    var _ :- Need(user in r.borrowBits || e.roomOk, MaxUserReservesExceeded);
    Ok(r.(data := data, debt := minted.state, cash := r.cash - amount, borrowBits := r.borrowBits + {user}))
  }

  function Borrow(r: Reserve, e: Env, user: Address, amount: nat): Result<Reserve> {
    var moved :- BorrowMove(r, e, user, amount);
    RefreshRates(moved, e.params)
  }

  /** The amount a repayment settles: everything, or what was offered if no dust is left behind. */
  function RepayAmount(d: Data, amount: nat, shown: nat): Result<nat> {
    if amount == U128_MAX then Ok(shown)
    else
      var tentative := Min(amount, shown);
      var _ :- if shown > tentative then CheckMinDebt(d, shown - tentative, LeavesTooLittleDebt) else Ok(());
      Ok(tentative)
  }

  function RepayMove(r: Reserve, e: Env, user: Address, amount: nat): Result<(Reserve, nat)> {
    var _ :- CheckOpen(r.data, e, amount);
    var data :- Accrue(r.data, e.now);
    var shown :- BalanceWithIndex(r.debt, user, data.borrowIndex);
    var _ :- Need(shown > 0, NoDebtOfRequestedType);
    var pay :- RepayAmount(data, amount, shown);
    var burned :- DebtBurn(r.debt, user, pay, data.borrowIndex);
    var bits := if shown == pay then r.borrowBits - {user} else r.borrowBits;
    Ok((r.(data := data, debt := burned.state, cash := r.cash + pay, borrowBits := bits), pay))
  }

  function Repay(r: Reserve, e: Env, user: Address, amount: nat): Result<(Reserve, nat)> {
    var moved :- RepayMove(r, e, user, amount);
    var done :- RefreshRates(moved.0, e.params);
    Ok((done, moved.1))
  }

  /** An ordinary aToken transfer, with the collateral bits the router keeps in step with it. */
  function TransferShares(r: Reserve, e: Env, from: Address, to: Address, amount: nat): Result<Reserve> {
    if amount == 0 then Err(InvalidAmount)
    else if from == to then Ok(r)
    else
      var _ :- Need(e.externalsOk, ExternalCallFailed);
      var index :- CurrentLiquidityIndex(r.data, e.now);
      var moved :- Transfer(r.supply, from, to, amount, index);
      var _ :- Need(e.healthOk, HealthFactorTooLow);
      var _ :- Need(moved.Of(to) == 0 || to in r.collateralBits || e.roomOk, MaxUserReservesExceeded);
      var cleared := if moved.Of(from) == 0 then r.collateralBits - {from} else r.collateralBits;
      var bits := if moved.Of(to) > 0 then cleared + {to} else cleared;
      Ok(r.(supply := moved, collateralBits := bits))
  }

  /**
   A user raises or drops the collateral flag of a reserve, whatever the balance. Dropping it needs a healthy
   account without it (`healthOk`).
   */
  function SetCollateralFlag(r: Reserve, externalsOk: bool, healthOk: bool, user: Address, on: bool): Result<Reserve> {
    var _ :- Need(externalsOk, ExternalCallFailed);
    var _ :- Need(r.data.config.active, AssetNotActive);
    var _ :- Need(on || healthOk, InvalidLiquidation);
    Ok(r.(collateralBits := if on then r.collateralBits + {user} else r.collateralBits - {user}))
  }

  /** Anyone may inject cash against a recorded deficit, up to that deficit. */
  function CoverDeficit(r: Reserve, externalsOk: bool, amount: nat): Result<(Reserve, nat)> {
    if amount == 0 || r.deficit == 0 then Err(InvalidAmount)
    else
      var cover := Min(amount, r.deficit);
      var _ :- Need(externalsOk, ExternalCallFailed);
      Ok((r.(cash := r.cash + cover, deficit := r.deficit - cover), cover))
  }

  /** Pay the treasury the cash beyond idle liquidity and uncovered deficit. Rates are not refreshed. */
  function CollectReserves(r: Reserve, now: nat, treasurySet: bool): Result<(Reserve, nat)> {
    var data :- Accrue(r.data, now);
    var supply :- TotalWithIndex(r.supply, data.liquidityIndex);
    var debt :- TotalWithIndex(r.debt, data.borrowIndex);
    var _ :- Need(debt <= supply, InvalidAmount);
    var available := supply - debt;
    var reserves := if r.cash > available then r.cash - available else 0;
    var collectible := if reserves > r.deficit then reserves - r.deficit else 0;
    if collectible == 0 then
      Ok((r.(data := data), 0))
    else
      var _ :- Need(treasurySet, TreasuryNotSet);
      Ok((r.(data := data, cash := r.cash - collectible), collectible))
  }

  /** The public views that store accrued indices without refreshing the rates. */
  function Poke(r: Reserve, now: nat): Result<Reserve> {
    var data :- Accrue(r.data, now);
    Ok(r.(data := data))
  }

  // ------------------------------------------------------------------ calls as data

  /** Calls that move one reserve. Donations stand for underlying tokens sent to the aToken directly. */
  datatype Op =
    | SupplyOp(e: Env, user: Address, amount: nat)
    | WithdrawOp(e: Env, user: Address, amount: nat)
    | BorrowOp(e: Env, user: Address, amount: nat)
    | RepayOp(e: Env, user: Address, amount: nat)
    | TransferOp(e: Env, from: Address, to: Address, amount: nat)
    | FlagOp(externalsOk: bool, healthOk: bool, user: Address, on: bool)
    | CoverOp(externalsOk: bool, amount: nat)
    | CollectOp(now: nat, treasurySet: bool)
    | PokeOp(now: nat)
    | ConfigureOp(config: Config)
    | DonateOp(amount: nat)

  function Apply(r: Reserve, op: Op): Result<Reserve> {
    match op
    case SupplyOp(e, user, amount) => Supply(r, e, user, amount)
    case WithdrawOp(e, user, amount) => var done :- Withdraw(r, e, user, amount); Ok(done.0)
    case BorrowOp(e, user, amount) => Borrow(r, e, user, amount)
    case RepayOp(e, user, amount) => var done :- Repay(r, e, user, amount); Ok(done.0)
    case TransferOp(e, from, to, amount) => TransferShares(r, e, from, to, amount)
    case FlagOp(ok, healthOk, user, on) => SetCollateralFlag(r, ok, healthOk, user, on)
    case CoverOp(ok, amount) => var done :- CoverDeficit(r, ok, amount); Ok(done.0)
    case CollectOp(now, treasurySet) => var done :- CollectReserves(r, now, treasurySet); Ok(done.0)
    case PokeOp(now) => Poke(r, now)
    case ConfigureOp(config) => Ok(r.(data := r.data.(config := config)))
    case DonateOp(amount) => Ok(r.(cash := r.cash + amount))
  }
}
