/** The strategy contracts as the vault's cross-contract calls meet them: one that holds
    its deposits itself, and one that lends them out through a pool of its own. */
module Strategies {
  import opened Balances
  import opened Results
  import opened Positions

  datatype Strategy =
    | Mock(vault: Address, balance: int, healthy: bool)
    | Lending(position: Position)
  {
    function Vault(): Address {
      if Mock? then vault else position.vault
    }

    /** `balance_of`: the strategy's own record. */
    function Ledger(): int {
      if Mock? then balance else position.tracked
    }

    /** `available_liquidity`: what can be withdrawn right now. */
    function Available(): int {
      if Mock? then balance else AvailableLiquidity(position)
    }

    function Healthy(): bool {
      if Mock? then healthy else position.pool.reachable && position.pool.sound
    }

    /** The account that holds the funds of the strategy at address `self`. */
    function Custody(self: Address): Address {
      if Mock? then self else position.pool.address
    }

    /** What an emergency withdrawal asks for. */
    function EmergencyAmount(): int {
      if Mock? then balance else QueryPoolPosition(position)
    }

    /** After paying out `x`. */
    function Drawn(x: nat): Strategy {
      match this
      case Mock(_, _, _) => this.(balance := balance - x)
      case Lending(p) =>
        (match WithdrawCollateral(p.pool, x)
         case Some(pool') => if x <= p.tracked then Lending(p.(pool := pool', tracked := p.tracked - x)) else this
         case None => this)
    }

    /** The strategy itself and its pool can pay `x` to `caller`. */
    predicate CanPay(caller: Address, x: nat) {
      caller == Vault() && x <= Ledger() && (Lending? ==> WithdrawCollateral(position.pool, x).Some?)
    }
  }

  // ------------------------------------------------------------------ calls

  /** Tokens that pass through an intermediate account. */
  function Forward(token: Table, from: Address, via: Address, to: Address, amount: int): Option<Table> {
    match Move(token, from, via, amount)
    case None => None
    case Some(token') => Move(token', via, to, amount)
  }

  /** `deposit`: the vault has already sent the tokens to the strategy's address; a
      lending strategy passes them on to its pool. */
  function StrategyDeposit(st: Strategy, self: Address, token: Table, caller: Address, amount: int)
    : Result<(Strategy, Table), StrategyError>
  {
    match st
    case Mock(vault, balance, _) =>
      if caller != vault then Err(NotAllowed)
      else if amount <= 0 then Err(NothingRequested)
      else Ok((st.(balance := balance + amount), token))
    case Lending(p) =>
      (match BlendDeposit(p, caller, amount)
       case Err(e) => Err(e)
       case Ok(p') =>
         match Move(token, self, p.pool.address, amount)
         case None => Err(TokenTrap)
         case Some(token') => Ok((Lending(p'), token')))
  }

  /** A transfer to the strategy and the deposit that books it, as one transaction. */
  function SendAndDeposit(st: Strategy, self: Address, token: Table, caller: Address, amount: int)
    : Option<(Strategy, Table)>
  {
    match Move(token, caller, self, amount)
    case None => None
    case Some(sent) =>
      match StrategyDeposit(st, self, sent, caller, amount)
      case Err(_) => None
      case Ok(booked) => Some(booked)
  }

  function StrategyWithdraw(st: Strategy, self: Address, token: Table, caller: Address, amount: int)
    : Result<(Strategy, Table, int), StrategyError>
  {
    match st
    case Mock(vault, balance, _) =>
      if caller != vault then Err(NotAllowed)
      else if amount <= 0 then Err(NothingRequested)
      else
        var withdrawAmount := if amount > balance then balance else amount;
        if withdrawAmount == 0 then Err(InsufficientBalance)
        else
          (match Move(token, self, caller, withdrawAmount)
           case None => Err(TokenTrap)
           case Some(token') => Ok((st.(balance := balance - withdrawAmount), token', withdrawAmount)))
    case Lending(p) =>
      (match BlendWithdraw(p, caller, amount)
       case Err(e) => Err(e)
       case Ok((p', x)) =>
         match Forward(token, p.pool.address, self, caller, x)
         case None => Err(TokenTrap)
         case Some(token') => Ok((Lending(p'), token', x)))
  }

  function StrategyEmergency(st: Strategy, self: Address, token: Table, caller: Address)
    : Result<(Strategy, Table, int), StrategyError>
  {
    match st
    case Mock(vault, balance, _) =>
      if caller != vault then Err(NotAllowed)
      else if balance == 0 then Ok((st, token, 0))
      else
        (match Move(token, self, caller, balance)
         case None => Err(TokenTrap)
         case Some(token') => Ok((st.(balance := 0), token', balance)))
    case Lending(p) =>
      (match BlendEmergencyWithdraw(p, caller)
       case Err(e) => Err(e)
       case Ok((p', x)) =>
         if x == 0 then Ok((Lending(p'), token, 0)) else
         match Forward(token, p.pool.address, self, p.vault, x)
         case None => Err(TokenTrap)
         case Some(token') => Ok((Lending(p'), token', x)))
  }

  // ------------------------------------------------------------------ what they move

  /** A lending strategy's pool is a third account. */
  predicate ThirdParty(st: Strategy, self: Address, caller: Address) {
    self != caller && (st.Lending? ==> st.position.pool.address != self && st.position.pool.address != caller)
  }

  /** `amount` went from one account to another and nothing else moved. */
  ghost predicate Moved(token: Table, token': Table, from: Address, to: Address, amount: int) {
    && Sum(token') == Sum(token)
    && Get(token', from) == Get(token, from) - amount && Get(token', to) == Get(token, to) + amount
    && forall a :: a != from && a != to ==> Get(token', a) == Get(token, a)
  }

  lemma MoveMoves(token: Table, from: Address, to: Address, amount: int)
    requires from != to && Move(token, from, to, amount).Some?
    ensures Moved(token, Move(token, from, to, amount).value, from, to, amount)
  {
    MoveConserves(token, from, to, amount);
  }

  lemma MovesCompose(t0: Table, t1: Table, t2: Table, from: Address, via: Address, to: Address, amount: int)
    requires from != via && via != to && from != to
    requires Moved(t0, t1, from, via, amount) && Moved(t1, t2, via, to, amount)
    ensures Moved(t0, t2, from, to, amount)
  {
  }

  lemma ForwardMoves(token: Table, from: Address, via: Address, to: Address, amount: int)
    requires from != via && via != to && from != to
    ensures Forward(token, from, via, to, amount).Some? <==> 0 <= amount <= Get(token, from)
    ensures Forward(token, from, via, to, amount).Some? ==>
              Moved(token, Forward(token, from, via, to, amount).value, from, to, amount)
  {
    if 0 <= amount <= Get(token, from) {
      MoveMoves(token, from, via, amount);
      var t := Move(token, from, via, amount).value;
      MoveMoves(t, via, to, amount);
      MovesCompose(token, t, Move(t, via, to, amount).value, from, via, to, amount);
    }
  }

  /** A withdrawal is paid, in full up to the strategy's record, exactly when the strategy
      can pay it and the account holding its funds has the tokens. */
  lemma WithdrawOutcome(st: Strategy, self: Address, token: Table, caller: Address, amount: int)
    requires ThirdParty(st, self, caller) && amount > 0
    ensures var x := if amount > st.Ledger() then st.Ledger() else amount;
            StrategyWithdraw(st, self, token, caller, amount).Ok?
            <==> 0 < x <= Get(token, st.Custody(self)) && st.CanPay(caller, x)
    ensures StrategyWithdraw(st, self, token, caller, amount).Ok? ==>
              var (st', token', x) := StrategyWithdraw(st, self, token, caller, amount).value;
              && x == (if amount > st.Ledger() then st.Ledger() else amount)
              && 0 < x && st' == st.Drawn(x) && Moved(token, token', st.Custody(self), caller, x)
  {
    var x := if amount > st.Ledger() then st.Ledger() else amount;
    if st.Mock? {
      if 0 < x <= Get(token, self) { MoveMoves(token, self, caller, x); }
    } else {
      ForwardMoves(token, st.position.pool.address, self, caller, x);
    }
  }

  /** An emergency withdrawal that goes through, called by the vault or by a lending
      strategy's admin, pays the vault what was asked and leaves no record. */
  lemma EmergencyOutcome(st: Strategy, self: Address, token: Table, caller: Address)
    requires ThirdParty(st, self, st.Vault())
    requires StrategyEmergency(st, self, token, caller).Ok?
    ensures var (st', token', x) := StrategyEmergency(st, self, token, caller).value;
            && (caller == st.Vault() || (st.Lending? && caller == st.position.admin))
            && x == st.EmergencyAmount() && x >= 0
            && st'.Ledger() == 0 && SameContract(st, st')
            && Moved(token, token', st.Custody(self), st.Vault(), x)
  {
    var x := st.EmergencyAmount();
    if st.Mock? {
      if x != 0 { MoveMoves(token, self, st.vault, x); }
    } else {
      ForwardMoves(token, st.position.pool.address, self, st.position.vault, x);
    }
  }

  /** A deposit adds to the record and passes pre-transferred tokens on to custody. */
  lemma DepositOutcome(st: Strategy, self: Address, token: Table, caller: Address, amount: int)
    requires ThirdParty(st, self, caller) && StrategyDeposit(st, self, token, caller, amount).Ok?
    ensures var (st', token') := StrategyDeposit(st, self, token, caller, amount).value;
            && caller == st.Vault() && amount > 0
            && st'.Ledger() == st.Ledger() + amount && SameContract(st, st')
            && (if st.Mock? then token' == token else Moved(token, token', self, st.Custody(self), amount))
  {
    if st.Lending? { MoveMoves(token, self, st.position.pool.address, amount); }
  }

  /** The same kind of contract, serving the same vault out of the same account. */
  predicate SameContract(st: Strategy, st': Strategy) {
    st'.Mock? == st.Mock? && st'.Vault() == st.Vault()
    && (st.Lending? ==> st'.position.pool.address == st.position.pool.address
                        && st'.position.admin == st.position.admin)
  }

  lemma DrawnFacts(st: Strategy, x: nat)
    ensures SameContract(st, st.Drawn(x))
    ensures st.CanPay(st.Vault(), x) ==> st.Drawn(x).Ledger() == st.Ledger() - x
  {
  }
}
