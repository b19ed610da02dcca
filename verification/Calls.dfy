/** When each call of the vault goes through, in terms of what can be read before it, and
    everything that is different afterwards. */
module Calls {
  import opened Arith
  import opened Balances
  import opened Results
  import opened Shares
  import opened Fees
  import opened Positions
  import opened Blend
  import opened Strategies
  import opened Model
  import opened Accounting
  import opened Greedy

  /** The tables differ by an amount that has gone from one entry to another. */
  ghost predicate Carried(t: Table, t': Table, from: Address, to: Address, amount: int) {
    && (forall a :: a != from && a != to ==> Get(t', a) == Get(t, a))
    && (if from == to then Get(t', to) == Get(t, to)
        else Get(t', from) == Get(t, from) - amount && Get(t', to) == Get(t, to) + amount)
  }

  /** The tables differ by an amount that one entry has gained. */
  ghost predicate Gained(t: Table, t': Table, to: Address, amount: int) {
    Get(t', to) == Get(t, to) + amount && forall a :: a != to ==> Get(t', a) == Get(t, a)
  }

  // ------------------------------------------------------------------ holders

  lemma TransferIff(w: World, from: Address, to: Address, amount: int)
    ensures Transfer(w, from, to, amount).Ok? <==> 0 < amount <= Get(w.shares, from)
    ensures Transfer(w, from, to, amount).Ok? ==>
              var w' := Transfer(w, from, to, amount).value.0;
              w' == w.(shares := w'.shares) && Carried(w.shares, w'.shares, from, to, amount)
    ensures Transfer(w, from, to, amount).Err? ==>
              Transfer(w, from, to, amount).error == if amount <= 0 then ZeroAmount else InsufficientShares
  {
  }

  /** A deposit goes through exactly while the vault is not paused, within the cap if there
      is one, for an amount that the depositor has and that pays for a share. */
  lemma DepositIff(w: World, from: Address, assets: int)
    requires w.supply >= 0
    ensures Deposit(w, from, assets).Ok? <==>
              && !w.settings.paused && 0 < assets <= Get(w.token, from)
              && (w.settings.depositCap > 0 ==> TotalAssets(w) + assets <= w.settings.depositCap)
              && assets * (w.supply + VIRTUAL_SHARES_OFFSET) >= TotalAssets(w) + VIRTUAL_SHARES_OFFSET
    ensures Deposit(w, from, assets).Ok? ==>
              var (w', minted) := Deposit(w, from, assets).value;
              var x, y := TotalAssets(w) + VIRTUAL_SHARES_OFFSET, w.supply + VIRTUAL_SHARES_OFFSET;
              && minted * x <= assets * y < minted * x + x
              && Carried(w.token, w'.token, from, w.self, assets) && Gained(w.shares, w'.shares, from, minted)
              && w' == w.(token := w'.token, shares := w'.shares, supply := w.supply + minted)
  {
    hide TotalAssets, SharesFor;
    var a, s := TotalAssets(w), w.supply;
    if assets > 0 {
      SharesForBounds(assets, a, s);
      var m := SharesFor(assets, a, s);
      if m >= 1 { MulLe(1, m, a + VIRTUAL_SHARES_OFFSET); }
    }
  }

  // ------------------------------------------------------------------ the strategy list

  /** The admin lists a strategy that is not listed while there is room; it comes last, with
      nothing recorded. */
  lemma AddStrategyIff(w: World, caller: Address, strategy: Address)
    ensures AddStrategy(w, caller, strategy).Ok? <==>
              caller == w.settings.admin && |w.strategies| < 20 && strategy !in w.strategies
    ensures AddStrategy(w, caller, strategy).Ok? ==>
              var w' := AddStrategy(w, caller, strategy).value.0;
              && |w'.strategies| == |w.strategies| + 1 && w'.strategies[|w.strategies|] == strategy
              && (forall i :: 0 <= i < |w.strategies| ==> w'.strategies[i] == w.strategies[i])
              && Get(w'.tracked, strategy) == 0
              && (forall s :: s != strategy ==> Get(w'.tracked, s) == Get(w.tracked, s))
              && w' == w.(strategies := w'.strategies, tracked := w'.tracked)
  {
  }

  /** The admin delists a strategy for which nothing is recorded; exactly it leaves the
      list, and the others keep their order. */
  lemma RemoveStrategyIff(w: World, caller: Address, strategy: Address)
    requires Wf(w)
    ensures RemoveStrategy(w, caller, strategy).Ok? <==>
              caller == w.settings.admin && Get(w.tracked, strategy) == 0 && strategy in w.strategies
    ensures RemoveStrategy(w, caller, strategy).Ok? ==>
              var w' := RemoveStrategy(w, caller, strategy).value.0;
              && strategy !in w'.strategies
              && (forall s :: s != strategy ==> (s in w'.strategies <==> s in w.strategies))
              && (forall i :: 0 <= i < |w.strategies| && w.strategies[i] == strategy ==>
                    w'.strategies == w.strategies[..i] + w.strategies[i + 1..])
              && (forall s :: Get(w'.tracked, s) == Get(w.tracked, s))
              && w' == w.(strategies := w'.strategies, tracked := w'.tracked)
  {
    RemoveFacts(w.strategies, strategy);
    forall i | 0 <= i < |w.strategies| && w.strategies[i] == strategy
      ensures Remove(w.strategies, strategy) == w.strategies[..i] + w.strategies[i + 1..]
    {
      RemoveAt(w.strategies, i);
    }
  }

  lemma {:induction false} RemoveAt(list: seq<Address>, i: nat)
    requires NoDuplicates(list) && i < |list|
    ensures Remove(list, list[i]) == list[..i] + list[i + 1..]
  {
    if i == 0 {
      RemoveAbsent(list[1..], list[0]);
    } else {
      assert NoDuplicates(list[1..]);
      RemoveAt(list[1..], i - 1);
      assert list[..i] == [list[0]] + list[1..][..i - 1];
      assert list[i + 1..] == list[1..][i..];
    }
  }

  lemma {:induction false} RemoveAbsent(list: seq<Address>, s: Address)
    requires s !in list
    ensures Remove(list, s) == list
  {
    if list != [] { RemoveAbsent(list[1..], s); }
  }

  // ------------------------------------------------------------------ allocation

  predicate ReportsHealthy(st: Strategy) {
    match st
    case Mock(_, _, healthy) => healthy
    case Lending(p) => p.pool.reachable && p.pool.sound
  }

  /** A strategy of the vault at `self` that reports itself healthy and accepts deposits. */
  predicate TakesDeposits(st: Strategy, self: Address) {
    ReportsHealthy(st) && st.Vault() == self && (st.Lending? ==> !st.position.paused)
  }

  /** The keeper asks for a positive amount for a listed strategy. */
  predicate KeeperAsks(w: World, caller: Address, strategy: Address, amount: int) {
    caller == w.settings.keeper && amount > 0 && strategy in w.strategies
  }

  /** What idle funds would be left is below the buffer, which is rounded down. */
  predicate BreaksBuffer(w: World, amount: int) {
    (Idle(w) - amount + 1) * MAX_BPS <= TotalAssets(w) * w.settings.bufferBps
  }

  /** The keeper can allocate to a listed strategy of the vault that takes deposits, exactly
      what the buffer leaves; and hears of the buffer before it hears of the strategy's
      health. */
  lemma AllocateIff(w: World, caller: Address, strategy: Address, amount: int)
    ensures Allocate(w, caller, strategy, amount).Ok? <==>
              && KeeperAsks(w, caller, strategy, amount) && !BreaksBuffer(w, amount)
              && strategy in w.deployed && TakesDeposits(w.deployed[strategy], w.self)
    ensures Allocate(w, caller, strategy, amount) == Err(IdleBufferViolation) <==>
              KeeperAsks(w, caller, strategy, amount) && BreaksBuffer(w, amount)
    ensures Allocate(w, caller, strategy, amount) == Err(StrategyUnhealthy) <==>
              && KeeperAsks(w, caller, strategy, amount) && !BreaksBuffer(w, amount)
              && strategy in w.deployed && !ReportsHealthy(w.deployed[strategy])
  {
    hide TotalAssets;
    BufferIff(w, amount);
    if KeeperAsks(w, caller, strategy, amount) && !BreaksBuffer(w, amount) && strategy in w.deployed {
      BufferIsNotNegative(w);
      FundIff(w, strategy, amount);
    }
  }

  /** The amount goes from the vault to the account that holds the strategy's funds, and is
      on both records. */
  lemma AllocateOutcome(w: World, caller: Address, strategy: Address, amount: int)
    requires Apart(w.self, w.deployed) && Allocate(w, caller, strategy, amount).Ok?
    ensures var w' := Allocate(w, caller, strategy, amount).value.0;
            && strategy in w.deployed && strategy in w'.deployed
            && SameContract(w.deployed[strategy], w'.deployed[strategy])
            && w'.deployed[strategy].Ledger() == w.deployed[strategy].Ledger() + amount
            && Carried(w.token, w'.token, w.self, w.deployed[strategy].Custody(strategy), amount)
            && Gained(w.tracked, w'.tracked, strategy, amount)
            && w' == w.(deployed := w.deployed[strategy := w'.deployed[strategy]], token := w'.token,
                        tracked := w'.tracked)
  {
    AllocateFunds(w, caller, strategy, amount);
    FundOutcome(w, strategy, amount);
  }

  lemma BufferIsNotNegative(w: World)
    ensures MinIdle(w) >= 0
  {
    MulLe(0, TotalAssets(w), w.settings.bufferBps);
    FloorBounds(TotalAssets(w) * w.settings.bufferBps, MAX_BPS);
  }

  lemma BufferIff(w: World, amount: int)
    ensures BreaksBuffer(w, amount) <==> Idle(w) - amount < MinIdle(w)
  {
    MulLe(0, TotalAssets(w), w.settings.bufferBps);
    FloorBounds(TotalAssets(w) * w.settings.bufferBps, MAX_BPS);
  }

  /** Funding goes through when a strategy of the vault accepts the deposit. */
  lemma FundIff(w: World, strategy: Address, amount: nat)
    requires strategy in w.deployed && 0 < amount <= Idle(w)
    ensures var st := w.deployed[strategy];
            Fund(w, strategy, amount).Ok? && st.Healthy() <==> TakesDeposits(st, w.self)
  {
    assert Get(Move(w.token, w.self, strategy, amount).value, strategy) >= amount;
  }

  // ------------------------------------------------------------------ funds that come back

  /** The strategy at `s` can pay the vault `x` out of the account that holds its funds. */
  predicate CanReturn(w: World, s: Address, x: nat)
    requires s in w.deployed
  {
    match w.deployed[s]
    case Mock(vault, _, _) => vault == w.self && x <= Get(w.token, s)
    case Lending(p) => p.vault == w.self && CanPayOut(p.pool, x) && x <= Get(w.token, p.pool.address)
  }

  /** A strategy has returned `x` and has `ledger` left on its own record, the vault has
      `record`; nothing else has changed. */
  ghost predicate Returned(w: World, w': World, s: Address, x: int, ledger: int, record: int) {
    && s in w.deployed && s in w'.deployed && SameContract(w.deployed[s], w'.deployed[s])
    && w'.deployed[s].Ledger() == ledger
    && Get(w'.tracked, s) == record && (forall a :: a != s ==> Get(w'.tracked, a) == Get(w.tracked, a))
    && Carried(w.token, w'.token, w.deployed[s].Custody(s), w.self, x)
    && w' == w.(deployed := w.deployed[s := w'.deployed[s]], token := w'.token, tracked := w'.tracked)
  }

  /** The keeper gets back from a listed strategy what was asked for, or all of its record
      if that is less, exactly when the strategy can return that. */
  lemma DeallocateIff(w: World, caller: Address, strategy: Address, amount: int)
    requires Apart(w.self, w.deployed)
    ensures Deallocate(w, caller, strategy, amount).Ok? <==>
              && KeeperAsks(w, caller, strategy, amount) && strategy in w.deployed
              && var x := Min(amount, w.deployed[strategy].Ledger());
              x > 0 && CanReturn(w, strategy, x)
    ensures Deallocate(w, caller, strategy, amount).Ok? ==>
              var (w', x) := Deallocate(w, caller, strategy, amount).value;
              var ledger, record := w.deployed[strategy].Ledger(), Get(w.tracked, strategy);
              && x == Min(amount, ledger)
              && Returned(w, w', strategy, x, ledger - x, if x > record then 0 else record - x)
              && Idle(w') == Idle(w) + x
  {
    hide StrategyWithdraw, CanReturn, Returned;
    if KeeperAsks(w, caller, strategy, amount) && strategy in w.deployed { PullIff(w, strategy, amount); }
  }

  lemma PullIff(w: World, strategy: Address, amount: nat)
    requires Apart(w.self, w.deployed) && strategy in w.deployed && amount > 0
    ensures var x := Min(amount, w.deployed[strategy].Ledger());
            PullFrom(w, strategy, amount).Ok? <==> x > 0 && CanReturn(w, strategy, x)
    ensures PullFrom(w, strategy, amount).Ok? ==>
              var (w', x) := PullFrom(w, strategy, amount).value;
              var ledger, record := w.deployed[strategy].Ledger(), Get(w.tracked, strategy);
              && x == Min(amount, ledger)
              && Returned(w, w', strategy, x, ledger - x, if x > record then 0 else record - x)
              && Idle(w') == Idle(w) + x
  {
    hide CanReturn, Returned;
    var st := w.deployed[strategy];
    WithdrawOutcome(st, strategy, w.token, w.self, amount);
    var x := Min(amount, st.Ledger());
    if x > 0 { ReturnIff(w, strategy, x); }
    if PullFrom(w, strategy, amount).Ok? {
      PullOutcome(w, strategy, amount);
      PulledReturned(w, PullFrom(w, strategy, amount).value.0, strategy, x);
    }
  }

  lemma PulledReturned(w: World, w': World, strategy: Address, x: nat)
    requires Apart(w.self, w.deployed) && strategy in w.deployed && Pulled(w, w', strategy, x)
    requires w.deployed[strategy].CanPay(w.self, x)
    ensures var ledger, record := w.deployed[strategy].Ledger(), Get(w.tracked, strategy);
            && Returned(w, w', strategy, x, ledger - x, if x > record then 0 else record - x)
            && Idle(w') == Idle(w) + x
  {
    DrawnFacts(w.deployed[strategy], x);
  }

  lemma ReturnIff(w: World, s: Address, x: nat)
    requires s in w.deployed && x <= w.deployed[s].Ledger()
    ensures CanReturn(w, s, x) <==>
              w.deployed[s].CanPay(w.self, x) && x <= Get(w.token, w.deployed[s].Custody(s))
  {
    if w.deployed[s].Lending? { CanPayOutIff(w.deployed[s].position.pool, x); }
  }

  /** What an emergency withdrawal brings: all of the balance, or of what the position is
      worth; from an unreachable pool nothing. */
  ghost predicate EmergencyWorth(st: Strategy, x: int) {
    match st
    case Mock(_, balance, _) => x == balance
    case Lending(p) =>
      if p.pool.reachable
      then x * BLEND_RATE_SCALAR <= p.pool.collateral * p.pool.bRate < (x + 1) * BLEND_RATE_SCALAR
      else x == 0
  }

  /** It has to be all there, and an unreachable pool must have nothing on record. */
  predicate CanEmpty(w: World, s: Address, x: int)
    requires s in w.deployed
  {
    match w.deployed[s]
    case Mock(vault, _, _) => vault == w.self && 0 <= x <= Get(w.token, s)
    case Lending(p) =>
      && p.vault == w.self && 0 <= x <= Get(w.token, p.pool.address)
      && (if p.pool.reachable then x == 0 || HasFree(p.pool, x) else p.tracked == 0)
  }

  /** The admin and the guardian can empty a listed strategy exactly when it can return
      everything at once; neither record survives. */
  lemma EmergencyWithdrawIff(w: World, caller: Address, strategy: Address, x: int)
    requires Apart(w.self, w.deployed) && strategy in w.deployed && EmergencyWorth(w.deployed[strategy], x)
    ensures EmergencyWithdrawStrategy(w, caller, strategy).Ok? <==>
              && (caller == w.settings.admin || caller == w.settings.guardian)
              && strategy in w.strategies && CanEmpty(w, strategy, x)
    ensures EmergencyWithdrawStrategy(w, caller, strategy).Ok? ==>
              var (w', y) := EmergencyWithdrawStrategy(w, caller, strategy).value;
              y == x && Returned(w, w', strategy, x, 0, 0) && Idle(w') == Idle(w) + x
  {
    if (caller == w.settings.admin || caller == w.settings.guardian) && strategy in w.strategies {
      DrainIff(w, strategy, x);
      if DrainFrom(w, strategy).Ok? { DrainOutcome(w, strategy); }
    }
  }

  lemma DrainIff(w: World, strategy: Address, x: int)
    requires Apart(w.self, w.deployed) && strategy in w.deployed && EmergencyWorth(w.deployed[strategy], x)
    ensures DrainFrom(w, strategy).Ok? <==> CanEmpty(w, strategy, x)
    ensures DrainFrom(w, strategy).Ok? ==> w.deployed[strategy].EmergencyAmount() == x
  {
    var st := w.deployed[strategy];
    if st.Lending? {
      DrainLendingIff(w, strategy, x);
    }
  }

  lemma DrainLendingIff(w: World, strategy: Address, x: int)
    requires Apart(w.self, w.deployed) && strategy in w.deployed && w.deployed[strategy].Lending?
    requires EmergencyWorth(w.deployed[strategy], x)
    ensures DrainFrom(w, strategy).Ok? <==> CanEmpty(w, strategy, x)
    ensures DrainFrom(w, strategy).Ok? ==> w.deployed[strategy].EmergencyAmount() == x
  {
    var p := w.deployed[strategy].position;
    var worth := p.pool.collateral * p.pool.bRate / BLEND_RATE_SCALAR;
    MulLe(0, p.pool.collateral, p.pool.bRate);
    EmergencyIff(p, w.self, worth);
    if p.pool.reachable { PositionWorth(p, worth); assert x == worth; }
    ForwardMoves(w.token, p.pool.address, strategy, w.self, x);
  }

  // ------------------------------------------------------------------ reports and fees

  /** The keeper's report replaces the record of a listed strategy. */
  lemma UpdateTrackedIff(w: World, caller: Address, strategy: Address, balance: int)
    ensures UpdateTrackedBalance(w, caller, strategy, balance).Ok? <==>
              caller == w.settings.keeper && balance >= 0 && strategy in w.strategies
    ensures UpdateTrackedBalance(w, caller, strategy, balance).Ok? ==>
              var w' := UpdateTrackedBalance(w, caller, strategy, balance).value.0;
              && Gained(w.tracked, w'.tracked, strategy, balance - Get(w.tracked, strategy))
              && w' == w.(tracked := w'.tracked)
  {
  }

  /** Anyone can collect fees exactly when one is due; then the recipient gains the shares
      that the fee buys, the supply grows by them, and the mark is the price after them. */
  lemma CollectFeesIff(w: World)
    requires Wf(w)
    ensures CollectFees(w).Ok? <==>
              AboveMark(TotalAssets(w), w.supply, w.hwm, w.settings.feeBps)
              && exists worth: nat, fee: nat ::
                   FeeInAssets(TotalAssets(w), w.supply, w.hwm, w.settings.feeBps, worth, fee)
                   && fee * (w.supply + VIRTUAL_SHARES_OFFSET) >= TotalAssets(w) + VIRTUAL_SHARES_OFFSET
    ensures CollectFees(w).Ok? ==>
              var (w', minted) := CollectFees(w).value;
              && minted > 0 && w'.hwm >= 0
              && (exists worth: nat, fee: nat ::
                    FeeTerms(TotalAssets(w), w.supply, w.hwm, w.settings.feeBps, worth, fee, minted, w'.hwm))
              && Gained(w.shares, w'.shares, w.settings.feeRecipient, minted)
              && w' == w.(shares := w'.shares, supply := w.supply + minted, hwm := w'.hwm)
    ensures CollectFees(w).Err? ==> CollectFees(w).error == NoFeesToCollect
  {
    hide TotalAssets, FeeFor, FeeInAssets, FeeInShares;
    var a, s, h, bps := TotalAssets(w), w.supply, w.hwm, w.settings.feeBps;
    FeeDueIff(a, s, h, bps);
    if FeeFor(a, s, h, bps).Fee? {
      FeeHasTerms(a, s, h, bps);
      var q := FeeFor(a, s, h, bps);
      assert FeeTerms(a, s, h, bps, TruncDiv(h * s, NAV_PRECISION), q.assets, q.shares, q.hwm);
    }
  }

  // ------------------------------------------------------------------ initialisation

  /** A vault starts with the roles and rates it was given, which must be within the caps,
      unpaused and uncapped, without strategies, shares, records or attestations. */
  lemma InitializeIff(now: nat, token: Table, deployed: map<Address, Strategy>, self: Address, admin: Address,
                      keeper: Address, guardian: Address, feeRecipient: Address, feeBps: nat, bufferBps: nat)
    ensures var r := Initialize(now, token, deployed, self, admin, keeper, guardian, feeRecipient, feeBps, bufferBps);
            && (r.Ok? <==> feeBps * 10 <= 3 * MAX_BPS && bufferBps * 10 <= 2 * MAX_BPS)
            && (r.Err? ==> r.error == InvalidBps)
            && (r.Ok? ==>
                  var w, g := r.value, r.value.settings;
                  && w.now == now && w.token == token && w.deployed == deployed && w.self == self
                  && g.admin == admin && g.keeper == keeper && g.guardian == guardian
                  && g.feeRecipient == feeRecipient && g.feeBps == feeBps && g.bufferBps == bufferBps
                  && !g.paused && g.depositCap == 0 && g.bridgedMaxAge == 24 * 60 * 60
                  && |w.strategies| == 0 && w.bridged == 0 && w.hwm == 10_000_000
                  && forall a :: Get(w.shares, a) == 0 && Get(w.tracked, a) == 0)
  {
  }
}
