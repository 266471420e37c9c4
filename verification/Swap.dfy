/** Collateral swap: shares of one reserve burned, the proceeds of a sale minted as shares of another. */
module Swaps {
  import opened Common
  import opened RayMath
  import opened Tokens
  import opened Reserves

  /** `received` is whatever the exchange returned; the health check runs on the resulting positions. */
  datatype SwapEnv = SwapEnv(
    now: nat, fromParams: ValidParams, toParams: ValidParams, poolPaused: bool, externalsOk: bool, healthOk: bool,
    received: nat, feeBps: nat)

  function CheckSwap(from: Data, to: Data, e: SwapEnv, amount: nat, minOut: nat): Result<()> {
    var _ :- Need(amount > 0 && minOut > 0, InvalidAmount);
    var _ :- Need(e.externalsOk, ExternalCallFailed);
    var _ :- Need(!e.poolPaused && !from.config.paused && !to.config.paused, AssetPaused);
    var _ :- Need(from.config.active && to.config.active, AssetNotActive);
    Need(!to.config.frozen, AssetFrozen)
  }

  /** U128_MAX asks for the whole displayed balance, which must not be zero. */
  function SwapAmount(r: Reserve, user: Address, amount: nat): Result<nat> {
    if amount != U128_MAX then Ok(amount)
    else
      var shown :- BalanceWithIndex(r.supply, user, r.data.liquidityIndex);
      if shown > 0 then Ok(shown) else Err(InsufficientCollateral)
  }

  /** The selling side, on a reserve whose index is up to date: returns it and what was paid out. */
  function SellMove(r: Reserve, user: Address, amount: nat): Result<(Reserve, nat)> {
    var want :- SwapAmount(r, user, amount);
    var paid :- ATokenBurnAndTransfer(r.supply, user, want, r.data.liquidityIndex);
    var _ :- Need(paid.actual <= r.cash, ExternalCallFailed);
    var bits := if paid.userScaled == 0 then r.collateralBits - {user} else r.collateralBits;
    Ok((r.(supply := paid.state, cash := r.cash - paid.actual, collateralBits := bits), paid.actual))
  }

  /** The buying side: the proceeds less the protocol fee come in as a deposit. */
  function BuyMove(r: Reserve, e: SwapEnv, user: Address, minOut: nat): Result<Reserve> {
    var _ :- Need(e.received >= minOut, InsufficientSwapOut);
    var fee :- PercentMul(e.received, e.feeBps);
    if e.received <= fee then
      Err(MathOverflow)
    else
      var deposit := e.received - fee;
      var _ :- CheckSupplyCap(r.supply, r.data, deposit);
      var minted :- ATokenMint(r.supply, user, deposit, r.data.liquidityIndex);
      Ok(r.(supply := minted.state, cash := r.cash + deposit, collateralBits := r.collateralBits + {user}))
  }

  /** Both indices are brought up to date in memory; the two reserves differ. */
  function SwapCollateral(from: Reserve, to: Reserve, e: SwapEnv, user: Address, amount: nat, minOut: nat)
    : Result<(Reserve, Reserve)>
  {
    var _ :- CheckSwap(from.data, to.data, e, amount, minOut);
    var fromData :- AccrueQuietly(from.data, e.now);
    var toData :- AccrueQuietly(to.data, e.now);
    var sold :- SellMove(from.(data := fromData), user, amount);
    var bought :- BuyMove(to.(data := toData), e, user, minOut);
    var _ :- Need(e.healthOk, InvalidLiquidation);
    var from' :- RefreshRates(sold.0, e.fromParams);
    var to' :- RefreshRates(bought, e.toParams);
    Ok((from', to'))
  }
}
