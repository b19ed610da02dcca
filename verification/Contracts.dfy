/** The vault contract, with the storage it updates in place.  Every entry point is proved
    to have exactly the outcome the model gives: the new state and result, or the error
    with the old state -- also where the host has to undo a transaction that failed
    halfway. */
module Contracts {
  import opened Arith
  import opened Balances
  import opened Results
  import opened Shares
  import opened Strategies
  import opened Hosts
  import opened Model
  import M = Model
  import opened Accounting

  class TezoroVault {
    const address: Address
    const host: Host

    var settings: Settings
    var strategies: seq<Address>
    var tracked: Table
    var supply: int
    var shares: Table
    var hwm: int
    var bridged: nat
    var bridgedAt: nat

    ghost function Abs(): World
      reads this, host, host.token
    {
      World(host.timestamp, host.token.balances, host.deployed, address, settings, strategies, tracked, supply, shares,
            hwm, bridged, bridgedAt)
    }

    /** The vault's own storage is not part of any other contract. */
    ghost predicate Linked()
      reads host, host.footprint
    {
      host.Valid() && {this, host, host.token} !! host.footprint
    }

    ghost predicate Valid()
      reads this, host, host.token, host.footprint
    {
      Linked() && Wf(Abs())
    }

    /** The outcome of a call that found the state `before`. */
    ghost predicate Did<T>(before: World, expected: Reply<T>, r: Result<T, VaultError>)
      reads this, host, host.token
    {
      match expected
      case Ok((w, v)) => r == Ok(v) && Abs() == w
      case Err(e) => r == Err(e) && Abs() == before
    }

    constructor (host: Host, address: Address, settings: Settings)
      requires host.Valid()
      ensures Linked() && this.host == host && this.address == address
      ensures Abs() == World(host.timestamp, host.token.balances, host.deployed, address, settings,
                             [], map[], 0, map[], NAV_PRECISION, 0, 0)
    {
      this.host, this.address, this.settings := host, address, settings;
      strategies, tracked := [], map[];
      supply, shares, hwm := 0, map[], NAV_PRECISION;
      bridged, bridgedAt := 0, 0;
    }

    // ---------------------------------------------------------------- views

    method EffectiveBridgedBalance() returns (b: nat)
      ensures b == EffectiveBridged(Abs())
    {
      if bridged == 0 { return 0; }
      if host.timestamp > bridgedAt && host.timestamp - bridgedAt > settings.bridgedMaxAge { return 0; }
      return bridged;
    }

    method TotalAssets() returns (total: nat)
      ensures total == M.TotalAssets(Abs())
    {
      var idle := Get(host.token.balances, address);
      var strategyTotal := 0;
      for i := 0 to |strategies|
        invariant strategyTotal + TrackedSum(strategies[i..], tracked) == TrackedSum(strategies, tracked)
      {
        strategyTotal := strategyTotal + Get(tracked, strategies[i]);
      }
      var b := EffectiveBridgedBalance();
      return idle + strategyTotal + b;
    }

    method StrategyExists(strategy: Address) returns (found: bool)
      ensures found <==> strategy in strategies
    {
      for i := 0 to |strategies|
        invariant strategy !in strategies[..i]
      {
        if strategies[i] == strategy { return true; }
      }
      return false;
    }

    // ---------------------------------------------------------------- shares

    method Transfer(from: Address, to: Address, amount: int) returns (r: Result<(), VaultError>)
      requires Valid()
      modifies this`shares
      ensures Valid() && Did(old(Abs()), M.Transfer(old(Abs()), from, to, amount), r)
    {
      hide Wf, Host.Valid;
      if amount <= 0 { return Err(ZeroAmount); }
      if Get(shares, from) < amount { return Err(InsufficientShares); }
      TransferEffect(Abs(), from, to, amount);
      shares := shares[from := Get(shares, from) - amount];
      shares := shares[to := Get(shares, to) + amount];
      return Ok(());
    }

    method Deposit(from: Address, assets: int) returns (r: Result<int, VaultError>)
      requires Valid()
      modifies this`shares, this`supply, host.token
      ensures Valid() && Did(old(Abs()), M.Deposit(old(Abs()), from, assets), r)
    {
      ghost var before := Abs();
      if settings.paused { return Err(Paused); }
      if assets <= 0 { return Err(ZeroAmount); }
      var currentTotal := TotalAssets();
      if settings.depositCap > 0 && currentTotal + assets > settings.depositCap { return Err(DepositCapExceeded); }
      var minted := SharesFor(assets, currentTotal, supply);
      if minted <= 0 { return Err(ZeroAmount); }
      r := TakeDeposit(from, assets, minted);
      if r.Ok? { IssueKeepsWf(before, from, assets, minted); }
    }

    method TakeDeposit(from: Address, assets: nat, minted: nat) returns (r: Result<int, VaultError>)
      requires Linked()
      modifies this`shares, this`supply, host.token
      ensures Linked()
      ensures Did(old(Abs()), Issue(old(Abs()), from, assets, minted), r)
    {
      hide Host.Valid;
      var ok := host.token.Transfer(from, address, assets);
      if !ok { return Err(HostTrap); }
      shares := shares[from := Get(shares, from) + minted];
      supply := supply + minted;
      return Ok(minted);
    }

    // ---------------------------------------------------------------- redemption

    /** `strategy.withdraw` and the bookkeeping after it; a strategy that fails aborts
        the transaction. */
    method Pull(strategy: Address, amount: int) returns (r: Result<int, VaultError>)
      requires Linked()
      modifies this`tracked, host`deployed, host.token, host.footprint
      ensures Linked()
      ensures Did(old(Abs()), PullFrom(old(Abs()), strategy, amount), r)
    {
      hide StrategyWithdraw, SaturatingSub, Get, Host.Valid;
      var there := host.Reaches(strategy);
      if !there { return Err(HostTrap); }
      var withdrawn := host.Withdraw(strategy, address, amount);
      if withdrawn.Err? { return Err(HostTrap); }
      Lower(strategy, withdrawn.value);
      return Ok(withdrawn.value);
    }

    /** The record of a strategy goes down by what it returned, never below zero. */
    method Lower(strategy: Address, withdrawn: int)
      requires Linked()
      modifies this`tracked
      ensures Linked() && tracked == old(tracked)[strategy := SaturatingSub(Get(old(tracked), strategy), withdrawn)]
    {
      var was := Get(tracked, strategy);
      tracked := tracked[strategy := if withdrawn > was then 0 else was - withdrawn];
    }

    /** The record of a strategy becomes `amount`. */
    method Track(strategy: Address, amount: nat)
      requires Linked()
      modifies this`tracked
      ensures Linked() && tracked == old(tracked)[strategy := amount]
    {
      tracked := tracked[strategy := amount];
    }

    /** The contract's own redemption code.  On an error it may leave strategies already
        drawn upon; nothing else has changed by then. */
    method RedeemBody(from: Address, amount: int) returns (r: Result<int, VaultError>)
      requires Valid()
      modifies this`tracked, this`shares, this`supply, host`deployed, host.token, host.footprint
      ensures Linked()
      ensures match M.Redeem(old(Abs()), from, amount)
              case Ok((w, v)) => r == Ok(v) && Abs() == w
              case Err(e) => r == Err(e) && shares == old(shares) && supply == old(supply)
    {
      if amount <= 0 { return Err(ZeroAmount); }
      if Get(shares, from) < amount { return Err(InsufficientShares); }
      var total := TotalAssets();
      var assets := AssetsFor(amount, total, supply);
      if assets <= 0 { return Err(ZeroAmount); }
      r := PayHolder(from, amount, assets);
    }

    method PayHolder(from: Address, amount: nat, assets: nat) returns (r: Result<int, VaultError>)
      requires Linked() && Get(shares, from) >= amount
      modifies this`tracked, this`shares, this`supply, host`deployed, host.token, host.footprint
      ensures Linked()
      ensures match PayOut(old(Abs()), from, amount, assets)
              case Ok((w, v)) => r == Ok(v) && Abs() == w
              case Err(e) => r == Err(e) && shares == old(shares) && supply == old(supply)
    {
      var raised := RaiseFunds(assets);
      if raised.Err? { return Err(raised.error); }
      if Get(host.token.balances, address) < assets { return Err(InsufficientAssets); }
      r := Settle(from, amount, assets);
    }

    method RaiseFunds(assets: nat) returns (r: Result<(), VaultError>)
      requires Linked()
      modifies this`tracked, host`deployed, host.token, host.footprint
      ensures Linked()
      ensures match Raise(old(Abs()), assets)
              case Ok((w, _)) => r == Ok(()) && Abs() == w
              case Err(e) => r == Err(e)
    {
      hide Waterfall;
      var idle := Get(host.token.balances, address);
      if idle >= assets { return Ok(()); }
      r := RaiseShortfall(assets - idle);
    }

    method Settle(from: Address, amount: nat, assets: nat) returns (r: Result<int, VaultError>)
      requires Linked() && Get(shares, from) >= amount && Get(host.token.balances, address) >= assets
      modifies this`shares, this`supply, host.token
      ensures Linked()
      ensures Did(old(Abs()), BurnAndPay(old(Abs()), from, amount, assets), r)
    {
      shares := shares[from := Get(shares, from) - amount];
      supply := supply - amount;
      var ok := host.token.Transfer(address, from, assets);
      assert ok;
      return Ok(assets);
    }

    /** The waterfall loop. */
    method RaiseShortfall(shortfall: nat) returns (r: Result<(), VaultError>)
      requires Linked()
      modifies this`tracked, host`deployed, host.token, host.footprint
      ensures Linked()
      ensures match Waterfall(old(Abs()), old(strategies), shortfall)
              case Ok((w, _)) => r == Ok(()) && Abs() == w
              case Err(e) => r == Err(e)
    {
      ghost var goal := Waterfall(Abs(), strategies, shortfall);
      var remaining: int := shortfall;
      assert strategies[0..] == strategies;
      for i := 0 to |strategies|
        invariant Linked() && Waterfall(Abs(), strategies[i..], remaining) == goal
      {
        if remaining <= 0 { break; }
        assert strategies[i..][0] == strategies[i] && strategies[i..][1..] == strategies[i + 1..];
        var left := Visit(strategies[i], remaining);
        if left.Err? { return Err(left.error); }
        remaining := left.value;
      }
      return Ok(());
    }

    /** One hop of the waterfall: what remains to be raised afterwards. */
    method Visit(strategy: Address, remaining: int) returns (left: Result<int, VaultError>)
      requires Linked() && remaining > 0
      modifies this`tracked, host`deployed, host.token, host.footprint
      ensures Linked()
      ensures Did(old(Abs()), Hop(old(Abs()), strategy, remaining), left)
    {
      hide PullFrom, Host.Valid;
      var there := host.Reaches(strategy);
      if !there { return Err(HostTrap); }
      var available := host.AvailableLiquidity(strategy);
      if available <= 0 { return Ok(remaining); }
      var toPull := if remaining < available then remaining else available;
      var pulled := Pull(strategy, toPull);
      if pulled.Err? { return Err(pulled.error); }
      return Ok(if pulled.value >= remaining then 0 else remaining - pulled.value);
    }

    method Redeem(from: Address, amount: int) returns (r: Result<int, VaultError>)
      requires Valid()
      modifies this`tracked, this`shares, this`supply, host`deployed, host.token, host.footprint
      ensures Valid() && Did(old(Abs()), M.Redeem(old(Abs()), from, amount), r)
    {
      ghost var before := Abs();
      r := RedeemAtomically(from, amount);
      if r.Ok? { RedeemKeepsWf(before, from, amount); }
    }

    /** The redemption as a transaction: it happens as a whole or not at all. */
    method RedeemAtomically(from: Address, amount: int) returns (r: Result<int, VaultError>)
      requires Valid()
      modifies this`tracked, this`shares, this`supply, host`deployed, host.token, host.footprint
      ensures Linked() && Did(old(Abs()), M.Redeem(old(Abs()), from, amount), r)
    {
      var trackedBefore := tracked;
      var balances, saved := host.Snapshot();
      r := RedeemBody(from, amount);
      if r.Err? {
        host.RollBack(balances, saved);
        tracked := trackedBefore;
      }
    }

    // ---------------------------------------------------------------- strategy list

    method AddStrategy(caller: Address, strategy: Address) returns (r: Result<(), VaultError>)
      requires Valid()
      modifies this`strategies, this`tracked
      ensures Valid() && Did(old(Abs()), M.AddStrategy(old(Abs()), caller, strategy), r)
    {
      hide Wf, Host.Valid;
      ghost var before := Abs();
      if caller != settings.admin { return Err(Unauthorized); }
      if |strategies| >= MAX_STRATEGIES { return Err(MaxStrategies); }
      var exists_ := StrategyExists(strategy);
      if exists_ { return Err(StrategyAlreadyActive); }
      strategies := strategies + [strategy];
      tracked := tracked[strategy := 0];
      ListKeepsWf(before, caller, strategy);
      return Ok(());
    }

    method RemoveStrategy(caller: Address, strategy: Address) returns (r: Result<(), VaultError>)
      requires Valid()
      modifies this`strategies, this`tracked
      ensures Valid() && Did(old(Abs()), M.RemoveStrategy(old(Abs()), caller, strategy), r)
    {
      hide Wf;
      ghost var before := Abs();
      if caller != settings.admin { return Err(Unauthorized); }
      if Get(tracked, strategy) > 0 { return Err(StrategyHasBalance); }
      var found, newStrategies := Without(strategy);
      if !found { return Err(StrategyNotActive); }
      ListKeepsWf(before, caller, strategy);
      strategies := newStrategies;
      tracked := tracked - {strategy};
      return Ok(());
    }

    method Without(strategy: Address) returns (found: bool, newStrategies: seq<Address>)
      ensures found <==> strategy in strategies
      ensures newStrategies == Remove(strategies, strategy)
    {
      found := false;
      newStrategies := [];
      assert strategies[0..] == strategies;
      for i := 0 to |strategies|
        invariant found <==> strategy in strategies[..i]
        invariant newStrategies + Remove(strategies[i..], strategy) == Remove(strategies, strategy)
      {
        assert strategies[i..][1..] == strategies[i + 1..];
        if strategies[i] == strategy {
          found := true;
        } else {
          newStrategies := newStrategies + [strategies[i]];
        }
      }
    }

    // ---------------------------------------------------------------- fund allocation

    method Allocate(caller: Address, strategy: Address, amount: int) returns (r: Result<(), VaultError>)
      requires Valid()
      modifies this`tracked, host`deployed, host.token, host.footprint
      ensures Valid() && Did(old(Abs()), M.Allocate(old(Abs()), caller, strategy, amount), r)
    {
      ghost var before := Abs();
      r := AllocateBody(caller, strategy, amount);
      if r.Ok? { AllocateKeepsWf(before, caller, strategy, amount); }
    }

    method AllocateBody(caller: Address, strategy: Address, amount: int) returns (r: Result<(), VaultError>)
      requires Linked()
      modifies this`tracked, host`deployed, host.token, host.footprint
      ensures Linked() && Did(old(Abs()), M.Allocate(old(Abs()), caller, strategy, amount), r)
    {
      hide Fund;
      if caller != settings.keeper { return Err(Unauthorized); }
      if amount <= 0 { return Err(ZeroAmount); }
      var exists_ := StrategyExists(strategy);
      if !exists_ { return Err(StrategyNotActive); }
      var idleBefore := Get(host.token.balances, address);
      var total := TotalAssets();
      var minIdle := TruncDiv(total * settings.bufferBps, MAX_BPS);
      if idleBefore - amount < minIdle { return Err(IdleBufferViolation); }
      var there := host.Reaches(strategy);
      if !there { return Err(HostTrap); }
      var healthy := host.IsHealthy(strategy);
      if !healthy { return Err(StrategyUnhealthy); }
      r := Deploy(strategy, amount);
    }

    /** Send the tokens and have the strategy book them. */
    method Deploy(strategy: Address, amount: nat) returns (r: Result<(), VaultError>)
      requires Linked() && strategy in host.deployed
      modifies this`tracked, host`deployed, host.token, host.footprint
      ensures Linked()
      ensures Did(old(Abs()), Fund(old(Abs()), strategy, amount), r)
    {
      hide SendAndDeposit, Get, Host.Valid;
      var ok := host.SendAndDeposit(strategy, address, amount);
      if !ok { return Err(HostTrap); }
      Track(strategy, Get(tracked, strategy) + amount);
      return Ok(());
    }

    method Deallocate(caller: Address, strategy: Address, amount: int) returns (r: Result<int, VaultError>)
      requires Valid()
      modifies this`tracked, host`deployed, host.token, host.footprint
      ensures Valid() && Did(old(Abs()), M.Deallocate(old(Abs()), caller, strategy, amount), r)
    {
      ghost var before := Abs();
      if caller != settings.keeper { return Err(Unauthorized); }
      if amount <= 0 { return Err(ZeroAmount); }
      var exists_ := StrategyExists(strategy);
      if !exists_ { return Err(StrategyNotActive); }
      r := Pull(strategy, amount);
      if r.Ok? { DeallocateEffect(before, caller, strategy, amount); }
    }

    method EmergencyWithdrawStrategy(caller: Address, strategy: Address) returns (r: Result<int, VaultError>)
      requires Valid()
      modifies this`tracked, host`deployed, host.token, host.footprint
      ensures Valid() && Did(old(Abs()), M.EmergencyWithdrawStrategy(old(Abs()), caller, strategy), r)
    {
      ghost var before := Abs();
      if caller != settings.admin && caller != settings.guardian { return Err(Unauthorized); }
      var exists_ := StrategyExists(strategy);
      if !exists_ { return Err(StrategyNotActive); }
      r := Drain(strategy);
      if r.Ok? { EmergencyEffect(before, caller, strategy); }
    }

    method Drain(strategy: Address) returns (r: Result<int, VaultError>)
      requires Linked()
      modifies this`tracked, host`deployed, host.token, host.footprint
      ensures Linked()
      ensures Did(old(Abs()), DrainFrom(old(Abs()), strategy), r)
    {
      hide StrategyEmergency, Host.Valid;
      var there := host.Reaches(strategy);
      if !there { return Err(HostTrap); }
      var withdrawn := host.EmergencyWithdraw(strategy, address);
      if withdrawn.Err? { return Err(HostTrap); }
      Track(strategy, 0);
      return Ok(withdrawn.value);
    }

    // ---------------------------------------------------------------- keeper reports and fees

    method AttestBridgedBalance(caller: Address, balance: int) returns (r: Result<(), VaultError>)
      requires Valid()
      modifies this`bridged, this`bridgedAt
      ensures Valid() && Did(old(Abs()), M.AttestBridgedBalance(old(Abs()), caller, balance), r)
    {
      if caller != settings.keeper { return Err(Unauthorized); }
      if balance < 0 { return Err(InvalidBalance); }
      bridged := balance;
      bridgedAt := host.timestamp;
      return Ok(());
    }

    method UpdateTrackedBalance(caller: Address, strategy: Address, balance: int) returns (r: Result<(), VaultError>)
      requires Valid()
      modifies this`tracked
      ensures Valid() && Did(old(Abs()), M.UpdateTrackedBalance(old(Abs()), caller, strategy, balance), r)
    {
      hide Wf;
      ghost var before := Abs();
      if caller != settings.keeper { return Err(Unauthorized); }
      if balance < 0 { return Err(InvalidBalance); }
      var exists_ := StrategyExists(strategy);
      if !exists_ { return Err(StrategyNotActive); }
      tracked := tracked[strategy := balance];
      UpdateTrackedEffect(before, caller, strategy, balance);
      return Ok(());
    }

    method CollectFees() returns (r: Result<int, VaultError>)
      requires Valid()
      modifies this`shares, this`supply, this`hwm
      ensures Valid() && Did(old(Abs()), M.CollectFees(old(Abs())), r)
    {
      ghost var before := Abs();
      var totalSupply := supply;
      if totalSupply == 0 { return Err(NoFeesToCollect); }
      var totalAssets := TotalAssets();
      var currentNav := TruncDiv(totalAssets * NAV_PRECISION, totalSupply);
      if currentNav <= hwm { return Err(NoFeesToCollect); }
      if settings.feeBps == 0 { return Err(NoFeesToCollect); }
      var hwmAssets := TruncDiv(hwm * totalSupply, NAV_PRECISION);
      var totalYield := totalAssets - hwmAssets;
      var feeAssets := TruncDiv(totalYield * settings.feeBps, MAX_BPS);
      var feeShares := SharesFor(feeAssets, totalAssets, totalSupply);
      if feeShares <= 0 { return Err(NoFeesToCollect); }
      var newHwm := TruncDiv(totalAssets * NAV_PRECISION, totalSupply + feeShares);
      r := MintFeeShares(feeShares, newHwm);
      CollectKeepsWf(before);
    }

    method MintFeeShares(minted: nat, mark: int) returns (r: Result<int, VaultError>)
      modifies this`shares, this`supply, this`hwm
      ensures Did(old(Abs()), MintFee(old(Abs()), minted, mark), r)
    {
      shares := shares[settings.feeRecipient := Get(shares, settings.feeRecipient) + minted];
      supply := supply + minted;
      hwm := mark;
      return Ok(minted);
    }
  }

  /** `initialize`: refused where a vault is initialised already; the fee and buffer caps
      are checked, then the vault starts empty with the mark at par, and valid. */
  method InitializeVault(host: Host, address: Address, initialised: bool, admin: Address, keeper: Address,
                         guardian: Address, feeRecipient: Address, feeBps: nat, bufferBps: nat)
    returns (r: Result<TezoroVault, VaultError>)
    requires host.Valid() && Apart(address, host.deployed)
    ensures initialised ==> r == Err(AlreadyInitialized)
    ensures !initialised ==>
            match M.Initialize(host.timestamp, host.token.balances, host.deployed, address, admin,
                               keeper, guardian, feeRecipient, feeBps, bufferBps)
            case Ok(w) => r.Ok? && fresh(r.value) && r.value.host == host && r.value.Abs() == w && r.value.Valid()
            case Err(e) => r == Err(e)
  {
    if initialised { return Err(AlreadyInitialized); }
    if feeBps > MAX_PERFORMANCE_FEE_BPS { return Err(InvalidBps); }
    if bufferBps > MAX_IDLE_BUFFER_BPS { return Err(InvalidBps); }
    var v := new TezoroVault(host, address,
                             Settings(admin, keeper, guardian, feeRecipient, feeBps, bufferBps, false, 0,
                                      DEFAULT_BRIDGED_MAX_AGE));
    assert Sum(v.shares) == 0;
    return Ok(v);
  }
}
