/** The ledger state the vault and its strategies act on, and the effect of every
    call as a function of that state.

    A call that is refused returns an error and no new state: the host undoes
    whatever a failing transaction had already written. */
module Model {
  import opened Arith
  import opened Balances
  import opened Results
  import opened Shares
  import opened Fees
  import opened Strategies

  const MAX_STRATEGIES := 20

  /** Roles and parameters of the vault. */
  datatype Settings = Settings(
    admin: Address, keeper: Address, guardian: Address, feeRecipient: Address,
    feeBps: nat, bufferBps: nat, paused: bool, depositCap: int, bridgedMaxAge: nat)

  datatype World = World(
    now: nat,                      // ledger timestamp
    token: Table,                  // balances of the underlying asset
    deployed: map<Address, Strategy>,   // strategy contracts
    self: Address,                 // the vault's own address
    settings: Settings,
    strategies: seq<Address>, tracked: Table,
    supply: int, shares: Table, hwm: int,
    bridged: nat, bridgedAt: nat)

  type Reply<T> = Result<(World, T), VaultError>

  // ------------------------------------------------------------------ total assets

  function Idle(w: World): nat {
    Get(w.token, w.self)
  }

  function TrackedSum(strategies: seq<Address>, tracked: Table): nat {
    if strategies == [] then 0 else Get(tracked, strategies[0]) + TrackedSum(strategies[1..], tracked)
  }

  function EffectiveBridged(w: World): nat {
    if w.bridged == 0 then 0
    else if w.now > w.bridgedAt && w.now - w.bridgedAt > w.settings.bridgedMaxAge then 0
    else w.bridged
  }

  function TotalAssets(w: World): nat {
    Idle(w) + TrackedSum(w.strategies, w.tracked) + EffectiveBridged(w)
  }

  // ------------------------------------------------------------------ vault shares

  function Transfer(w: World, from: Address, to: Address, amount: int): Reply<()> {
    var _ :- Need(amount > 0, ZeroAmount);
    match Move(w.shares, from, to, amount)
    case None => Err(InsufficientShares)
    case Some(shares') => Ok((w.(shares := shares'), ()))
  }

  /** Deposit: price the assets, then take them and issue the shares. */
  function Deposit(w: World, from: Address, assets: int): Reply<int> {
    var _ :- Need(!w.settings.paused, Paused);
    var _ :- Need(assets > 0, ZeroAmount);
    var currentTotal := TotalAssets(w);
    var _ :- Need(!(w.settings.depositCap > 0 && currentTotal + assets > w.settings.depositCap), DepositCapExceeded);
    var minted := SharesFor(assets, currentTotal, w.supply);
    var _ :- Need(minted > 0, ZeroAmount);
    Issue(w, from, assets, minted)
  }

  function Issue(w: World, from: Address, assets: int, minted: nat): Reply<int> {
    match Move(w.token, from, w.self, assets)
    case None => Err(HostTrap)
    case Some(token') =>
      Ok((w.(token := token', shares := w.shares[from := Get(w.shares, from) + minted], supply := w.supply + minted),
          minted))
  }

  /** What a withdrawal does to the vault's record of a strategy: never below zero. */
  function SaturatingSub(tracked: nat, withdrawn: int): nat {
    if withdrawn > tracked then 0 else tracked - withdrawn
  }

  /** `strategy.withdraw` called by the vault, with the vault's bookkeeping after it. */
  function PullFrom(w: World, strategy: Address, amount: int): Reply<int> {
    var _ :- Need(strategy in w.deployed, HostTrap);
    match StrategyWithdraw(w.deployed[strategy], strategy, w.token, w.self, amount)
    case Err(_) => Err(HostTrap)
    case Ok((st, token', withdrawn)) =>
      Ok((w.(deployed := w.deployed[strategy := st], token := token',
             tracked := w.tracked[strategy := SaturatingSub(Get(w.tracked, strategy), withdrawn)]),
          withdrawn))
  }

  /** One hop of the waterfall: ask a strategy for what remains to be raised, up to its
      quote.  Returns what remains afterwards. */
  function Hop(w: World, strategy: Address, remaining: int): Reply<int> {
    var _ :- Need(strategy in w.deployed, HostTrap);
    var available := w.deployed[strategy].Available();
    if available <= 0 then Ok((w, remaining))
    else
      var toPull := if remaining < available then remaining else available;
      var pulled :- PullFrom(w, strategy, toPull);
      Ok((pulled.0, if pulled.1 >= remaining then 0 else remaining - pulled.1))
  }

  /** The redemption waterfall over the strategies not yet visited; `remaining` is the
      shortfall still to be raised. */
  function Waterfall(w: World, pending: seq<Address>, remaining: int): Reply<()>
    decreases |pending|
  {
    if pending == [] || remaining <= 0 then Ok((w, ()))
    else
      var hop :- Hop(w, pending[0], remaining);
      Waterfall(hop.0, pending[1..], hop.1)
  }

  /** Redemption: price the shares, then pay them out. */
  function Redeem(w: World, from: Address, shares: int): Reply<int>
    requires w.supply >= 0
  {
    var _ :- Need(shares > 0, ZeroAmount);
    var _ :- Need(Get(w.shares, from) >= shares, InsufficientShares);
    var assets := AssetsFor(shares, TotalAssets(w), w.supply);
    var _ :- Need(assets > 0, ZeroAmount);
    PayOut(w, from, shares, assets)
  }

  /** Raise what idle funds do not cover. */
  function Raise(w: World, assets: nat): Reply<()> {
    if Idle(w) < assets then Waterfall(w, w.strategies, assets - Idle(w)) else Ok((w, ()))
  }

  /** Raise the funds, burn the shares and pay the holder. */
  function PayOut(w: World, from: Address, shares: nat, assets: nat): Reply<int> {
    var raised :- Raise(w, assets);
    var w1 := raised.0;
    var _ :- Need(Idle(w1) >= assets, InsufficientAssets);
    BurnAndPay(w1, from, shares, assets)
  }

  function BurnAndPay(w: World, from: Address, shares: nat, assets: nat): Reply<int> {
    var _ :- Need(Get(w.shares, from) >= shares, InsufficientShares);
    match Move(w.token, w.self, from, assets)
    case None => Err(HostTrap)
    case Some(token') =>
      Ok((w.(token := token', shares := w.shares[from := Get(w.shares, from) - shares], supply := w.supply - shares),
          assets))
  }

  // ------------------------------------------------------------------ strategy list

  function Remove(strategies: seq<Address>, strategy: Address): seq<Address> {
    if strategies == [] then []
    else if strategies[0] == strategy then Remove(strategies[1..], strategy)
    else [strategies[0]] + Remove(strategies[1..], strategy)
  }

  function AddStrategy(w: World, caller: Address, strategy: Address): Reply<()> {
    var _ :- Need(caller == w.settings.admin, Unauthorized);
    var _ :- Need(|w.strategies| < MAX_STRATEGIES, MaxStrategies);
    var _ :- Need(strategy !in w.strategies, StrategyAlreadyActive);
    Ok((w.(strategies := w.strategies + [strategy], tracked := w.tracked[strategy := 0]), ()))
  }

  function RemoveStrategy(w: World, caller: Address, strategy: Address): Reply<()> {
    var _ :- Need(caller == w.settings.admin, Unauthorized);
    var _ :- Need(Get(w.tracked, strategy) == 0, StrategyHasBalance);
    var _ :- Need(strategy in w.strategies, StrategyNotActive);
    Ok((w.(strategies := Remove(w.strategies, strategy), tracked := w.tracked - {strategy}), ()))
  }

  // ------------------------------------------------------------------ fund allocation

  function MinIdle(w: World): int {
    TruncDiv(TotalAssets(w) * w.settings.bufferBps, MAX_BPS)
  }

  function Allocate(w: World, caller: Address, strategy: Address, amount: int): Reply<()> {
    var _ :- Need(caller == w.settings.keeper, Unauthorized);
    var _ :- Need(amount > 0, ZeroAmount);
    var _ :- Need(strategy in w.strategies, StrategyNotActive);
    var _ :- Need(Idle(w) - amount >= MinIdle(w), IdleBufferViolation);
    var _ :- Need(strategy in w.deployed, HostTrap);
    var _ :- Need(w.deployed[strategy].Healthy(), StrategyUnhealthy);
    Fund(w, strategy, amount)
  }

  /** Send the tokens ahead, then have the strategy book them; a strategy that refuses
      undoes the transfer with everything else. */
  function Fund(w: World, strategy: Address, amount: nat): Reply<()>
    requires strategy in w.deployed
  {
    match SendAndDeposit(w.deployed[strategy], strategy, w.token, w.self, amount)
    case None => Err(HostTrap)
    case Some((st, token')) =>
      Ok((w.(token := token', deployed := w.deployed[strategy := st],
             tracked := w.tracked[strategy := Get(w.tracked, strategy) + amount]), ()))
  }

  function Deallocate(w: World, caller: Address, strategy: Address, amount: int): Reply<int> {
    var _ :- Need(caller == w.settings.keeper, Unauthorized);
    var _ :- Need(amount > 0, ZeroAmount);
    var _ :- Need(strategy in w.strategies, StrategyNotActive);
    PullFrom(w, strategy, amount)
  }

  function EmergencyWithdrawStrategy(w: World, caller: Address, strategy: Address): Reply<int> {
    var _ :- Need(caller == w.settings.admin || caller == w.settings.guardian, Unauthorized);
    var _ :- Need(strategy in w.strategies, StrategyNotActive);
    DrainFrom(w, strategy)
  }

  /** `strategy.emergency_withdraw`, after which the vault tracks nothing there. */
  function DrainFrom(w: World, strategy: Address): Reply<int> {
    var _ :- Need(strategy in w.deployed, HostTrap);
    match StrategyEmergency(w.deployed[strategy], strategy, w.token, w.self)
    case Err(_) => Err(HostTrap)
    case Ok((st, token', withdrawn)) =>
      Ok((w.(deployed := w.deployed[strategy := st], token := token', tracked := w.tracked[strategy := 0]), withdrawn))
  }

  // ------------------------------------------------------------------ keeper reports

  function AttestBridgedBalance(w: World, caller: Address, balance: int): Reply<()> {
    var _ :- Need(caller == w.settings.keeper, Unauthorized);
    if balance < 0 then Err(InvalidBalance) else
    Ok((w.(bridged := balance, bridgedAt := w.now), ()))
  }

  function UpdateTrackedBalance(w: World, caller: Address, strategy: Address, balance: int): Reply<()> {
    var _ :- Need(caller == w.settings.keeper, Unauthorized);
    if balance < 0 then Err(InvalidBalance) else
    var _ :- Need(strategy in w.strategies, StrategyNotActive);
    Ok((w.(tracked := w.tracked[strategy := balance]), ()))
  }

  // ------------------------------------------------------------------ fees

  function CollectFees(w: World): Reply<int>
    requires w.supply >= 0
  {
    match FeeFor(TotalAssets(w), w.supply, w.hwm, w.settings.feeBps)
    case NoFee => Err(NoFeesToCollect)
    case Fee(_, minted, mark) => MintFee(w, minted, mark)
  }

  function MintFee(w: World, minted: nat, mark: int): Reply<int> {
    Ok((w.(shares := w.shares[w.settings.feeRecipient := Get(w.shares, w.settings.feeRecipient) + minted],
           supply := w.supply + minted, hwm := mark),
        minted))
  }

  // ------------------------------------------------------------------ initialisation

  const DEFAULT_BRIDGED_MAX_AGE := 86_400

  /** A vault just initialised at address `self` on a ledger that may already hold
      tokens and strategy contracts. */
  function Initialize(now: nat, token: Table, deployed: map<Address, Strategy>, self: Address, admin: Address,
                      keeper: Address, guardian: Address, feeRecipient: Address, feeBps: nat, bufferBps: nat)
    : Result<World, VaultError>
  {
    var _ :- Need(feeBps <= MAX_PERFORMANCE_FEE_BPS, InvalidBps);
    var _ :- Need(bufferBps <= MAX_IDLE_BUFFER_BPS, InvalidBps);
    Ok(World(now, token, deployed, self,
             Settings(admin, keeper, guardian, feeRecipient, feeBps, bufferBps, false, 0, DEFAULT_BRIDGED_MAX_AGE),
             [], map[], 0, map[], NAV_PRECISION, 0, 0))
  }
}
