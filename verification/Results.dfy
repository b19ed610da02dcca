/** Outcomes of calls: a value, or the error a contract reports. */
module Results {

  /** Errors the vault reports itself; `HostTrap` stands for a panic or a failed
      cross-contract call, which aborts the transaction without a vault error code. */
  datatype VaultError =
    | NotInitialized | AlreadyInitialized | Unauthorized | Paused | ZeroAmount
    | InsufficientShares | InsufficientAssets | DepositCapExceeded
    | MaxStrategies | StrategyAlreadyActive | StrategyNotActive | InvalidBps
    | StrategyHasBalance | NoPendingAdmin | InvalidBalance
    | UpgradeNotScheduled | UpgradeTooEarly | IdleBufferViolation
    | NoFeesToCollect | StrategyUnhealthy
    | HostTrap

  datatype StrategyError =
    | NotAllowed | NothingRequested | InsufficientBalance | StrategyPaused | TokenTrap

  datatype Result<+T, +E> = Ok(value: T) | Err(error: E) {
    predicate IsFailure() { Err? }
    function PropagateFailure<U>(): Result<U, E>
      requires Err?
    {
      Err(error)
    }
    function Extract(): T
      requires Ok?
    {
      value
    }
  }

  function Need(condition: bool, error: VaultError): Result<(), VaultError> {
    if condition then Ok(()) else Err(error)
  }
}
