/** A Blend strategy's position: a tracked balance in underlying units backed by b_tokens
    in a lending pool that rounds in its own favour -- down when it mints, up when it
    burns. */
module Positions {
  import opened Arith
  import opened Balances
  import opened Results

  const BLEND_RATE_SCALAR := 1_000_000_000_000
  const AVAILABLE_LIQUIDITY_ROUNDING_MARGIN := 2

  type Positive = x: int | x > 0 witness 1

  /** What the strategy sees of the pool: its address, the rates, the pool-wide supplies,
      and the strategy's own collateral in b_tokens.  `sound` is whether utilisation and
      backstop are within the configured thresholds. */
  datatype Pool = Pool(
    address: Address, bRate: Positive, dRate: nat, bSupply: nat, dSupply: nat, collateral: nat,
    reachable: bool, sound: bool)

  /** What interest and the pool's other users may change. */
  datatype Market = Market(bRate: Positive, dRate: nat, bSupply: nat, dSupply: nat, reachable: bool, sound: bool)

  function AtMarket(p: Pool, m: Market): Pool {
    Pool(p.address, m.bRate, m.dRate, m.bSupply, m.dSupply, p.collateral, m.reachable, m.sound)
  }

  datatype Position = Position(vault: Address, admin: Address, paused: bool, tracked: nat, pool: Pool)

  // ------------------------------------------------------------------ the pool

  function BTokensMinted(amount: nat, bRate: Positive): nat {
    amount * BLEND_RATE_SCALAR / bRate
  }

  function BTokensBurned(amount: nat, bRate: Positive): nat {
    CeilDiv(amount * BLEND_RATE_SCALAR, bRate)
  }

  function FreeLiquidity(p: Pool): int {
    p.bSupply * p.bRate / BLEND_RATE_SCALAR - p.dSupply * p.dRate / BLEND_RATE_SCALAR
  }

  function SupplyCollateral(p: Pool, amount: nat): Option<Pool> {
    if !p.reachable then None else
    var minted := BTokensMinted(amount, p.bRate);
    Some(p.(collateral := p.collateral + minted, bSupply := p.bSupply + minted))
  }

  /** The pool refuses to burn more than the strategy holds or to lend out more than it
      has free. */
  function WithdrawCollateral(p: Pool, amount: nat): Option<Pool> {
    var burned := BTokensBurned(amount, p.bRate);
    if !p.reachable || burned > p.collateral || burned > p.bSupply || amount > FreeLiquidity(p) then None else
    Some(p.(collateral := p.collateral - burned, bSupply := p.bSupply - burned))
  }

  // ------------------------------------------------------------------ the strategy

  function ApplyRoundingMargin(value: int): int {
    var trimmed := value - AVAILABLE_LIQUIDITY_ROUNDING_MARGIN;
    if trimmed < 0 then 0 else trimmed
  }

  function AvailableLiquidity(s: Position): int {
    if s.tracked == 0 then 0
    else if !s.pool.reachable then ApplyRoundingMargin(s.tracked)
    else
      var poolAvailable := FreeLiquidity(s.pool);
      ApplyRoundingMargin(if poolAvailable < s.tracked then poolAvailable else s.tracked)
  }

  function QueryPoolPosition(s: Position): nat {
    if !s.pool.reachable then s.tracked
    else if s.pool.collateral == 0 then 0
    else s.pool.collateral * s.pool.bRate / BLEND_RATE_SCALAR
  }

  function BlendDeposit(s: Position, caller: Address, amount: int): Result<Position, StrategyError> {
    if caller != s.vault then Err(NotAllowed)
    else if s.paused then Err(StrategyPaused)
    else if amount <= 0 then Err(NothingRequested)
    else
      match SupplyCollateral(s.pool, amount)
      case None => Err(TokenTrap)
      case Some(pool') => Ok(s.(pool := pool', tracked := s.tracked + amount))
  }

  function BlendWithdraw(s: Position, caller: Address, amount: int): Result<(Position, int), StrategyError> {
    if caller != s.vault then Err(NotAllowed)
    else if amount <= 0 then Err(NothingRequested)
    else
      var withdrawAmount := if amount > s.tracked then s.tracked else amount;
      if withdrawAmount == 0 then Err(InsufficientBalance)
      else
        match WithdrawCollateral(s.pool, withdrawAmount)
        case None => Err(TokenTrap)
        case Some(pool') => Ok((s.(pool := pool', tracked := s.tracked - withdrawAmount), withdrawAmount))
  }

  function BlendEmergencyWithdraw(s: Position, caller: Address): Result<(Position, int), StrategyError> {
    if caller != s.vault && caller != s.admin then Err(NotAllowed)
    else
      var withdrawAmount := QueryPoolPosition(s);
      if withdrawAmount == 0 then Ok((s.(tracked := 0), 0))
      else
        match WithdrawCollateral(s.pool, withdrawAmount)
        case None => Err(TokenTrap)
        case Some(pool') => Ok((s.(pool := pool', tracked := 0), withdrawAmount))
  }
}
