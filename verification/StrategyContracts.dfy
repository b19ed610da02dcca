/** The token and the strategy contracts, with the storage they update in place.  Every
    call is proved to have exactly the outcome `Strategies` gives. */
module StrategyContracts {
  import opened Balances
  import opened Results
  import opened Positions
  import opened Strategies

  /** The underlying asset. */
  class Token {
    var balances: Table

    method Transfer(from: Address, to: Address, amount: int) returns (ok: bool)
      modifies this
      ensures ok == Move(old(balances), from, to, amount).Some?
      ensures balances == if ok then Move(old(balances), from, to, amount).value else old(balances)
    {
      if amount < 0 || Get(balances, from) < amount { return false; }
      balances := balances[from := Get(balances, from) - amount];
      balances := balances[to := Get(balances, to) + amount];
      return true;
    }
  }

  // ------------------------------------------------------------------ funds held by the strategy

  class MockStrategy {
    const address: Address
    const token: Token
    const vault: Address
    var balance: int
    var healthy: bool

    function State(): Strategy
      reads this
    {
      Mock(vault, balance, healthy)
    }

    constructor (address: Address, vault: Address, token: Token)
      ensures State() == Mock(vault, 0, true) && this.address == address && this.token == token
    {
      this.address, this.vault, this.token, balance, healthy := address, vault, token, 0, true;
    }

    /** The host puts back what a failed transaction had written. */
    method Restore(st: Strategy)
      requires st.Mock? && st.vault == vault
      modifies this
      ensures State() == st
    {
      balance, healthy := st.balance, st.healthy;
    }

    method Deposit(caller: Address, amount: int) returns (r: Result<(), StrategyError>)
      modifies this
      ensures match StrategyDeposit(old(State()), address, token.balances, caller, amount)
              case Ok((st, _)) => r == Ok(()) && State() == st
              case Err(e) => r == Err(e) && State() == old(State())
    {
      if caller != vault { return Err(NotAllowed); }
      if amount <= 0 { return Err(NothingRequested); }
      balance := balance + amount;
      return Ok(());
    }

    method Withdraw(caller: Address, amount: int) returns (r: Result<int, StrategyError>)
      modifies this, token
      ensures match StrategyWithdraw(old(State()), address, old(token.balances), caller, amount)
              case Ok((st, t, x)) => r == Ok(x) && State() == st && token.balances == t
              case Err(e) => r == Err(e) && State() == old(State()) && token.balances == old(token.balances)
    {
      if caller != vault { return Err(NotAllowed); }
      if amount <= 0 { return Err(NothingRequested); }
      var withdrawAmount := if amount > balance then balance else amount;
      if withdrawAmount == 0 { return Err(InsufficientBalance); }
      var ok := token.Transfer(address, caller, withdrawAmount);
      if !ok { return Err(TokenTrap); }
      balance := balance - withdrawAmount;
      return Ok(withdrawAmount);
    }

    method EmergencyWithdraw(caller: Address) returns (r: Result<int, StrategyError>)
      modifies this, token
      ensures match StrategyEmergency(old(State()), address, old(token.balances), caller)
              case Ok((st, t, x)) => r == Ok(x) && State() == st && token.balances == t
              case Err(e) => r == Err(e) && State() == old(State()) && token.balances == old(token.balances)
    {
      if caller != vault { return Err(NotAllowed); }
      if balance == 0 { return Ok(0); }
      var ok := token.Transfer(address, caller, balance);
      if !ok { return Err(TokenTrap); }
      r := Ok(balance);
      balance := 0;
    }
  }

  // ------------------------------------------------------------------ funds lent through a pool

  /** The lending pool, as far as one strategy sees it. */
  class BlendPool {
    const token: Token
    const address: Address
    var bRate: Positive
    var dRate: nat
    var bSupply: nat
    var dSupply: nat
    var collateral: nat
    var reachable: bool
    var sound: bool

    function State(): Pool
      reads this
    {
      Pool(address, bRate, dRate, bSupply, dSupply, collateral, reachable, sound)
    }

    constructor (token: Token, state: Pool)
      ensures State() == state && this.token == token
    {
      this.token, address := token, state.address;
      bRate, dRate, bSupply, dSupply := state.bRate, state.dRate, state.bSupply, state.dSupply;
      collateral, reachable, sound := state.collateral, state.reachable, state.sound;
    }

    method Restore(state: Pool)
      requires state.address == address
      modifies this
      ensures State() == state
    {
      bRate, dRate, bSupply, dSupply := state.bRate, state.dRate, state.bSupply, state.dSupply;
      collateral, reachable, sound := state.collateral, state.reachable, state.sound;
    }

    method FreeFunds() returns (free: int)
      ensures free == FreeLiquidity(State())
    {
      var supplied := bSupply * bRate / BLEND_RATE_SCALAR;
      var borrowed := dSupply * dRate / BLEND_RATE_SCALAR;
      return supplied - borrowed;
    }

    /** `submit` with a supply request: mints b_tokens, rounded down, for tokens taken from
        the strategy. */
    method SubmitSupply(from: Address, amount: nat) returns (ok: bool)
      modifies this, token
      ensures ok == (SupplyCollateral(old(State()), amount).Some?
                     && Move(old(token.balances), from, address, amount).Some?)
      ensures ok ==> State() == SupplyCollateral(old(State()), amount).value
                     && token.balances == Move(old(token.balances), from, address, amount).value
      ensures !ok ==> State() == old(State()) && token.balances == old(token.balances)
    {
      if !reachable { return false; }
      ok := token.Transfer(from, address, amount);
      if ok {
        var minted := BTokensMinted(amount, bRate);
        collateral, bSupply := collateral + minted, bSupply + minted;
      }
    }

    /** `submit` with a withdraw request: burns b_tokens, rounded up, for tokens sent to the
        strategy. */
    method SubmitWithdraw(to: Address, amount: nat) returns (ok: bool)
      modifies this, token
      ensures ok == (WithdrawCollateral(old(State()), amount).Some?
                     && Move(old(token.balances), address, to, amount).Some?)
      ensures ok ==> State() == WithdrawCollateral(old(State()), amount).value
                     && token.balances == Move(old(token.balances), address, to, amount).value
      ensures !ok ==> State() == old(State()) && token.balances == old(token.balances)
    {
      var burned := BTokensBurned(amount, bRate);
      var free := FreeFunds();
      if !reachable || burned > collateral || burned > bSupply || amount > free { return false; }
      ok := token.Transfer(address, to, amount);
      if ok { collateral, bSupply := collateral - burned, bSupply - burned; }
    }
  }

  class BlendStrategy {
    const address: Address
    const token: Token
    const vault: Address
    const admin: Address
    const pool: BlendPool
    var paused: bool
    var tracked: nat

    function State(): Strategy
      reads this, pool
    {
      Lending(Position(vault, admin, paused, tracked, pool.State()))
    }

    constructor (address: Address, vault: Address, admin: Address, pool: BlendPool)
      ensures State() == Lending(Position(vault, admin, false, 0, pool.State()))
      ensures this.address == address && this.token == pool.token && this.pool == pool
    {
      this.address, this.vault, this.admin, this.pool, token := address, vault, admin, pool, pool.token;
      paused, tracked := false, 0;
    }

    method Restore(st: Strategy)
      requires st.Lending? && st.position.vault == vault && st.position.admin == admin
      requires st.position.pool.address == pool.address
      modifies this, pool
      ensures State() == st
    {
      paused, tracked := st.position.paused, st.position.tracked;
      pool.Restore(st.position.pool);
    }

    method Deposit(caller: Address, amount: int) returns (r: Result<(), StrategyError>)
      requires pool.token == token
      modifies this, pool, token
      ensures match StrategyDeposit(old(State()), address, old(token.balances), caller, amount)
              case Ok((st, t)) => r == Ok(()) && State() == st && token.balances == t
              case Err(e) => r == Err(e) && State() == old(State()) && token.balances == old(token.balances)
    {
      if caller != vault { return Err(NotAllowed); }
      if paused { return Err(StrategyPaused); }
      if amount <= 0 { return Err(NothingRequested); }
      var ok := pool.SubmitSupply(address, amount);
      if !ok { return Err(TokenTrap); }
      tracked := tracked + amount;
      return Ok(());
    }

    /** The tokens that a withdrawal request brings to the strategy go on to `to`. */
    method PassOn(to: Address, amount: nat) returns (ok: bool)
      requires pool.token == token
      modifies pool, token
      ensures ok == (WithdrawCollateral(old(pool.State()), amount).Some?
                     && Forward(old(token.balances), pool.address, address, to, amount).Some?)
      ensures ok ==> pool.State() == WithdrawCollateral(old(pool.State()), amount).value
                     && token.balances == Forward(old(token.balances), pool.address, address, to, amount).value
      ensures !ok ==> pool.State() == old(pool.State()) && token.balances == old(token.balances)
    {
      ok := pool.SubmitWithdraw(address, amount);
      if ok {
        var sent := token.Transfer(address, to, amount);
        assert sent;
      }
    }

    method Withdraw(caller: Address, amount: int) returns (r: Result<int, StrategyError>)
      requires pool.token == token
      modifies this, pool, token
      ensures match StrategyWithdraw(old(State()), address, old(token.balances), caller, amount)
              case Ok((st, t, x)) => r == Ok(x) && State() == st && token.balances == t
              case Err(e) => r == Err(e) && State() == old(State()) && token.balances == old(token.balances)
    {
      if caller != vault { return Err(NotAllowed); }
      if amount <= 0 { return Err(NothingRequested); }
      var withdrawAmount := if amount > tracked then tracked else amount;
      if withdrawAmount == 0 { return Err(InsufficientBalance); }
      var ok := PassOn(caller, withdrawAmount);
      if !ok { return Err(TokenTrap); }
      tracked := tracked - withdrawAmount;
      return Ok(withdrawAmount);
    }

    method PoolPosition() returns (amount: nat)
      ensures amount == QueryPoolPosition(State().position)
    {
      if !pool.reachable { return tracked; }
      if pool.collateral == 0 { return 0; }
      return pool.collateral * pool.bRate / BLEND_RATE_SCALAR;
    }

    method EmergencyWithdraw(caller: Address) returns (r: Result<int, StrategyError>)
      requires pool.token == token
      modifies this, pool, token
      ensures match StrategyEmergency(old(State()), address, old(token.balances), caller)
              case Ok((st, t, x)) => r == Ok(x) && State() == st && token.balances == t
              case Err(e) => r == Err(e) && State() == old(State()) && token.balances == old(token.balances)
    {
      if caller != vault && caller != admin { return Err(NotAllowed); }
      var withdrawAmount := PoolPosition();
      if withdrawAmount == 0 {
        tracked := 0;
        return Ok(0);
      }
      var ok := PassOn(vault, withdrawAmount);
      if !ok { return Err(TokenTrap); }
      tracked := 0;
      return Ok(withdrawAmount);
    }

    method Quote() returns (available: int)
      ensures available == AvailableLiquidity(State().position)
    {
      if tracked == 0 { return 0; }
      if !pool.reachable { return ApplyRoundingMargin(tracked); }
      var free := pool.FreeFunds();
      return ApplyRoundingMargin(if free < tracked then free else tracked);
    }
  }
}
