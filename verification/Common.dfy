/** Results, error codes and addresses shared by every contract of the protocol. */
module Common {

  /** An account or contract address. Only equality is ever used. */
  type Address = nat

  /** The error codes the modelled operations return; the host rolls a failed call back. */
  datatype Error =
    | MathOverflow
    | InvalidAmount
    | InvalidIndex
    | InsufficientBalance
    | InsufficientCollateral
    | InsufficientLiquidity
    | InsufficientRewards
    | InsufficientSwapOut
    | AssetNotActive
    | AssetPaused
    | AssetFrozen
    | BorrowingNotEnabled
    | SupplyCapExceeded
    | BorrowCapExceeded
    | DebtCeilingExceeded
    | HealthFactorTooLow
    | InvalidLiquidation
    | LiquidationAmountTooHigh
    | LeavesTooLittleDebt
    | NoDebtOfRequestedType
    | MaxUserReservesExceeded
    | ExternalCallFailed
    | PriceOracleNotFound
    | ReserveNotFound
    | TokenCallFailed
    | TreasuryNotSet
    | InvalidFlashLoanParams
    | FlashLoanNotAuthorized
    | FlashLoanExecutionFailed
    | FlashLoanNotRepaid
    | InvalidConfiguration
    | NotInitialized
    | ContractPaused
    | InvalidRewardType
    | MaxAssetsExceeded

  datatype Option<+T> = None | Some(value: T)

  datatype Result<+T> = Ok(value: T) | Err(error: Error) {
    predicate IsFailure() {
      Err?
    }

    function PropagateFailure<U>(): Result<U>
      requires Err?
    {
      Err(error)
    }

    function Extract(): T
      requires Ok?
    {
      value
    }
  }

  /** The `require!` of the contracts: succeed, or fail with the given code. */
  function Need(condition: bool, error: Error): Result<()> {
    if condition then Ok(()) else Err(error)
  }

  function Min(a: nat, b: nat): nat {
    if a <= b then a else b
  }

  function Max(a: nat, b: nat): nat {
    if a >= b then a else b
  }
}
