/** The host a transaction runs on: the contracts that cross-contract calls can reach, the
    token they all move, the clock, and the undoing of failed transactions. */
module Hosts {
  import opened Balances
  import opened Results
  import opened Strategies
  import opened StrategyContracts

  /** The contract behind a strategy address. */
  datatype Client = ToMock(mock: MockStrategy) | ToBlend(blend: BlendStrategy) {

    ghost function Objects(): set<object> {
      if ToMock? then {mock} else {blend, blend.pool}
    }

    function State(): Strategy
      reads Objects()
    {
      if ToMock? then mock.State() else blend.State()
    }

    /** It lives at `address` and moves `token`. */
    ghost predicate At(address: Address, token: Token) {
      match this
      case ToMock(m) => m.address == address && m.token == token
      case ToBlend(b) => b.address == address && b.token == token && b.pool.token == token
    }

    /** The contract can have the state `st`: what is fixed at its creation agrees. */
    ghost predicate Fits(st: Strategy) {
      match this
      case ToMock(m) => st.Mock? && st.vault == m.vault
      case ToBlend(b) => st.Lending? && st.position.vault == b.vault && st.position.admin == b.admin
                         && st.position.pool.address == b.pool.address
    }
  }

  class Host {
    const token: Token
    const contracts: map<Address, Client>
    ghost const footprint: set<object>   // everything the contracts write to, tokens apart
    var timestamp: nat
    ghost var deployed: map<Address, Strategy>   // the contracts' states

    constructor (token: Token, contracts: map<Address, Client>, ghost footprint: set<object>, timestamp: nat)
      requires Deployable(token, contracts) && token !in footprint
      requires forall a :: a in contracts ==> contracts[a].Objects() <= footprint
      ensures Valid() && this.token == token && this.contracts == contracts && this.footprint == footprint
      ensures this.timestamp == timestamp
    {
      this.token, this.contracts, this.footprint, this.timestamp := token, contracts, footprint, timestamp;
      new;
      deployed := Deployed();
    }

    /** Contracts at their addresses, moving one token, each with storage of its own; a
        lending strategy with a pool of its own. */
    static ghost predicate Deployable(token: Token, contracts: map<Address, Client>) {
      && (forall a :: a in contracts ==> contracts[a].At(a, token))
      && (forall a, b :: a in contracts && b in contracts && a != b ==>
            contracts[a].Objects() !! contracts[b].Objects())
    }

    ghost predicate Linked() {
      && Deployable(token, contracts)
      && token !in footprint && this !in footprint
      && forall a :: a in contracts ==> contracts[a].Objects() <= footprint
    }

    function Deployed(): map<Address, Strategy>
      requires Linked()
      reads footprint
    {
      map a | a in contracts :: contracts[a].State()
    }

    ghost predicate Valid()
      reads this, footprint
    {
      Linked() && deployed == Deployed()
    }

    /** A call that wrote to one contract only changed that contract's state. */
    twostate lemma OnlyChanged(strategy: Address)
      requires Linked() && strategy in contracts
      requires forall o :: o in footprint && o !in contracts[strategy].Objects() ==> unchanged(o)
      ensures Deployed() == old(Deployed())[strategy := contracts[strategy].State()]
      ensures contracts[strategy].State() == old(contracts[strategy].State()) ==> Deployed() == old(Deployed())
    {
      forall a | a in contracts && a != strategy ensures contracts[a].State() == old(contracts[a].State()) {
        assert contracts[a].Objects() !! contracts[strategy].Objects();
        assert forall o :: o in contracts[a].Objects() ==> o in footprint && unchanged(o);
      }
    }

    // ---------------------------------------------------------------- calls

    /** Whether there is a strategy contract at the address at all. */
    method Reaches(strategy: Address) returns (found: bool)
      requires Valid()
      ensures found <==> strategy in deployed
    {
      return strategy in contracts;
    }

    ghost method Refresh()
      requires Linked()
      modifies this`deployed
      ensures Valid() && deployed == old(Deployed())
    {
      deployed := Deployed();
    }

    method Deposit(strategy: Address, caller: Address, amount: int) returns (r: Result<(), StrategyError>)
      requires Valid() && strategy in deployed
      modifies this`deployed, token, footprint
      ensures Valid()
      ensures match StrategyDeposit(old(deployed)[strategy], strategy, old(token.balances), caller, amount)
              case Ok((st, t)) => r == Ok(()) && deployed == old(deployed)[strategy := st] && token.balances == t
              case Err(e) => r == Err(e) && deployed == old(deployed) && token.balances == old(token.balances)
    {
      hide StrategyDeposit;
      r := CallDeposit(strategy, caller, amount);
      Refresh();
    }

    method CallDeposit(strategy: Address, caller: Address, amount: int) returns (r: Result<(), StrategyError>)
      requires Linked() && strategy in contracts
      modifies token, footprint
      ensures match StrategyDeposit(old(Deployed())[strategy], strategy, old(token.balances), caller, amount)
              case Ok((st, t)) => r == Ok(()) && Deployed() == old(Deployed())[strategy := st] && token.balances == t
              case Err(e) => r == Err(e) && Deployed() == old(Deployed()) && token.balances == old(token.balances)
    {
      match contracts[strategy] {
        case ToMock(m) => r := m.Deposit(caller, amount);
        case ToBlend(b) => r := b.Deposit(caller, amount);
      }
      OnlyChanged(strategy);
    }

    method Withdraw(strategy: Address, caller: Address, amount: int) returns (r: Result<int, StrategyError>)
      requires Valid() && strategy in deployed
      modifies this`deployed, token, footprint
      ensures Valid()
      ensures match StrategyWithdraw(old(deployed)[strategy], strategy, old(token.balances), caller, amount)
              case Ok((st, t, x)) => r == Ok(x) && deployed == old(deployed)[strategy := st] && token.balances == t
              case Err(e) => r == Err(e) && deployed == old(deployed) && token.balances == old(token.balances)
    {
      hide StrategyWithdraw;
      r := CallWithdraw(strategy, caller, amount);
      Refresh();
    }

    method CallWithdraw(strategy: Address, caller: Address, amount: int) returns (r: Result<int, StrategyError>)
      requires Linked() && strategy in contracts
      modifies token, footprint
      ensures match StrategyWithdraw(old(Deployed())[strategy], strategy, old(token.balances), caller, amount)
              case Ok((st, t, x)) => r == Ok(x) && Deployed() == old(Deployed())[strategy := st] && token.balances == t
              case Err(e) => r == Err(e) && Deployed() == old(Deployed()) && token.balances == old(token.balances)
    {
      match contracts[strategy] {
        case ToMock(m) => r := m.Withdraw(caller, amount);
        case ToBlend(b) => r := b.Withdraw(caller, amount);
      }
      OnlyChanged(strategy);
    }

    method EmergencyWithdraw(strategy: Address, caller: Address) returns (r: Result<int, StrategyError>)
      requires Valid() && strategy in deployed
      modifies this`deployed, token, footprint
      ensures Valid()
      ensures match StrategyEmergency(old(deployed)[strategy], strategy, old(token.balances), caller)
              case Ok((st, t, x)) => r == Ok(x) && deployed == old(deployed)[strategy := st] && token.balances == t
              case Err(e) => r == Err(e) && deployed == old(deployed) && token.balances == old(token.balances)
    {
      hide StrategyEmergency;
      r := CallEmergency(strategy, caller);
      Refresh();
    }

    method CallEmergency(strategy: Address, caller: Address) returns (r: Result<int, StrategyError>)
      requires Linked() && strategy in contracts
      modifies token, footprint
      ensures match StrategyEmergency(old(Deployed())[strategy], strategy, old(token.balances), caller)
              case Ok((st, t, x)) => r == Ok(x) && Deployed() == old(Deployed())[strategy := st] && token.balances == t
              case Err(e) => r == Err(e) && Deployed() == old(Deployed()) && token.balances == old(token.balances)
    {
      match contracts[strategy] {
        case ToMock(m) => r := m.EmergencyWithdraw(caller);
        case ToBlend(b) => r := b.EmergencyWithdraw(caller);
      }
      OnlyChanged(strategy);
    }

    /** A transfer to a strategy and the deposit that books it, as one transaction: a
        strategy that refuses undoes the transfer. */
    method SendAndDeposit(strategy: Address, caller: Address, amount: int) returns (ok: bool)
      requires Valid() && strategy in deployed
      modifies this`deployed, token, footprint
      ensures Valid()
      ensures match Strategies.SendAndDeposit(old(deployed)[strategy], strategy, old(token.balances), caller, amount)
              case None => !ok && deployed == old(deployed) && token.balances == old(token.balances)
              case Some((st, t)) => ok && deployed == old(deployed)[strategy := st] && token.balances == t
    {
      hide StrategyDeposit, Move;
      var balances := token.balances;
      ok := token.Transfer(caller, strategy, amount);
      if ok {
        var deposited := Deposit(strategy, caller, amount);
        ok := deposited.Ok?;
        if !ok { token.balances := balances; }
      }
    }

    method AvailableLiquidity(strategy: Address) returns (available: int)
      requires Valid() && strategy in deployed
      ensures available == deployed[strategy].Available()
    {
      match contracts[strategy] {
        case ToMock(m) => available := m.balance;
        case ToBlend(b) => available := b.Quote();
      }
    }

    method IsHealthy(strategy: Address) returns (healthy: bool)
      requires Valid() && strategy in deployed
      ensures healthy == deployed[strategy].Healthy()
    {
      match contracts[strategy] {
        case ToMock(m) => healthy := m.healthy;
        case ToBlend(b) => healthy := b.pool.reachable && b.pool.sound;
      }
    }

    // ---------------------------------------------------------------- failed transactions

    /** The states are ones the contracts have had. */
    ghost predicate Fitting(saved: map<Address, Strategy>) {
      saved.Keys == contracts.Keys && forall a :: a in contracts ==> contracts[a].Fits(saved[a])
    }

    /** What the host keeps of the state before a transaction. */
    method Snapshot() returns (balances: Table, saved: map<Address, Strategy>)
      requires Valid()
      ensures balances == token.balances && saved == deployed && Fitting(saved)
    {
      balances, saved := token.balances, map a | a in contracts :: contracts[a].State();
    }

    /** What the host does with a failed transaction: everything written is put back. */
    method RollBack(balances: Table, saved: map<Address, Strategy>)
      requires Valid() && Fitting(saved)
      modifies this`deployed, token, footprint
      ensures Valid() && token.balances == balances && deployed == saved
    {
      token.balances := balances;
      PutAllBack(saved);
      Refresh();
    }

    method PutAllBack(saved: map<Address, Strategy>)
      requires Linked() && Fitting(saved)
      modifies footprint
      ensures Deployed() == saved
    {
      var rest := contracts.Keys;
      while rest != {}
        invariant rest <= contracts.Keys
        invariant forall a :: a in contracts && a !in rest ==> contracts[a].State() == saved[a]
      {
        var a :| a in rest;
        PutBack(a, saved[a]);
        rest := rest - {a};
      }
    }

    method PutBack(strategy: Address, st: Strategy)
      requires Linked() && strategy in contracts && contracts[strategy].Fits(st)
      modifies contracts[strategy].Objects()
      ensures contracts[strategy].State() == st
      ensures forall a :: a in contracts && a != strategy ==> contracts[a].State() == old(contracts[a].State())
    {
      match contracts[strategy] {
        case ToMock(m) => m.Restore(st);
        case ToBlend(b) => b.Restore(st);
      }
      forall a | a in contracts && a != strategy ensures contracts[a].State() == old(contracts[a].State()) {
        assert contracts[a].Objects() !! contracts[strategy].Objects();
      }
    }
  }
}
