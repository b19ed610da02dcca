/** What each vault call does to the quantities users care about: total assets, total
    supply, the share table and the token ledger. */
module Accounting {
  import opened Balances
  import opened Results
  import opened Shares
  import opened Fees
  import opened Strategies
  import opened Model

  ghost predicate NoDuplicates(list: seq<Address>) {
    forall i, j :: 0 <= i < j < |list| ==> list[i] != list[j]
  }

  /** Contracts live at different addresses, a lending strategy's pool is neither the vault
      nor a strategy, and the vault is not its admin. */
  ghost predicate Apart(self: Address, deployed: map<Address, Strategy>) {
    && self !in deployed
    && forall s :: s in deployed && deployed[s].Lending? ==>
         && deployed[s].position.pool.address != self && deployed[s].position.pool.address !in deployed
         && deployed[s].position.admin != self
  }

  /** The same contracts, whatever they have recorded since. */
  ghost predicate SameContracts(before: map<Address, Strategy>, after: map<Address, Strategy>) {
    after.Keys == before.Keys && forall s :: s in before ==> SameContract(before[s], after[s])
  }

  /** The list has no duplicates and nothing is tracked for anything else. */
  ghost predicate Listed(strategies: seq<Address>, tracked: Table) {
    && NoDuplicates(strategies) && |strategies| <= MAX_STRATEGIES
    && forall s :: s !in strategies ==> Get(tracked, s) == 0
  }

  /** Holds in every reachable state, whatever the callers do. */
  ghost predicate Wf(w: World) {
    && Listed(w.strategies, w.tracked)
    && w.supply == Sum(w.shares)
    && w.hwm >= NAV_PRECISION
    && w.settings.feeBps <= MAX_PERFORMANCE_FEE_BPS && w.settings.bufferBps <= MAX_IDLE_BUFFER_BPS
    && Apart(w.self, w.deployed)
  }

  lemma ListedPut(strategies: seq<Address>, tracked: Table, s: Address, v: nat)
    requires Listed(strategies, tracked) && s in strategies
    ensures Listed(strategies, tracked[s := v])
  {
  }

  lemma OneContract(deployed: map<Address, Strategy>, s: Address, st: Strategy)
    requires s in deployed && SameContract(deployed[s], st)
    ensures SameContracts(deployed, deployed[s := st])
  {
  }

  // ------------------------------------------------------------------ the sum over strategies

  lemma {:induction false} TrackedSumPut(list: seq<Address>, tracked: Table, s: Address, v: nat)
    requires NoDuplicates(list)
    ensures TrackedSum(list, tracked[s := v])
            == if s in list then TrackedSum(list, tracked) - Get(tracked, s) + v else TrackedSum(list, tracked)
  {
    if list != [] { TrackedSumPut(list[1..], tracked, s, v); }
  }

  lemma {:induction false} TrackedSumDrop(list: seq<Address>, tracked: Table, s: Address)
    requires Get(tracked, s) == 0
    ensures TrackedSum(Remove(list, s), tracked - {s}) == TrackedSum(list, tracked)
  {
    if list != [] {
      TrackedSumDrop(list[1..], tracked, s);
      var rest := Remove(list[1..], s);
      if list[0] != s { assert ([list[0]] + rest)[1..] == rest; }
    }
  }

  lemma {:induction false} TrackedSumAppend(list: seq<Address>, tracked: Table, s: Address)
    ensures TrackedSum(list + [s], tracked) == TrackedSum(list, tracked) + Get(tracked, s)
  {
    if list == [] {
      assert list + [s] == [s] && TrackedSum([], tracked) == 0;
      assert [s][1..] == [];
    } else {
      assert (list + [s])[1..] == list[1..] + [s];
      TrackedSumAppend(list[1..], tracked, s);
    }
  }

  /** Removing an address keeps the others, in order and without duplicates. */
  lemma {:induction false} RemoveFacts(list: seq<Address>, s: Address)
    ensures forall a :: a in Remove(list, s) <==> a in list && a != s
    ensures |Remove(list, s)| <= |list|
    ensures NoDuplicates(list) ==> NoDuplicates(Remove(list, s))
  {
    if list != [] {
      RemoveFacts(list[1..], s);
      if NoDuplicates(list) {
        assert list[0] !in list[1..];
        assert NoDuplicates(list[1..]);
      }
    }
  }

  // ------------------------------------------------------------------ pulling funds back

  /** `w'` differs from `w` only by funds that strategies have returned to the vault. */
  ghost predicate Raised(w: World, w': World) {
    && w' == w.(deployed := w'.deployed, token := w'.token, tracked := w'.tracked)
    && SameContracts(w.deployed, w'.deployed)
    && Sum(w'.token) == Sum(w.token)
    && Idle(w') >= Idle(w)
    && TotalAssets(w') >= TotalAssets(w)
    && (forall s :: s !in w.strategies ==> Get(w'.tracked, s) == Get(w.tracked, s))
  }

  /** What a pull does to the contracts and the tokens: the strategy pays `x` out of the
      account that holds its funds, and its record at the vault goes down, not below zero. */
  ghost predicate Pulled(w: World, w': World, strategy: Address, x: nat)
    requires strategy in w.deployed
  {
    && 0 < x <= w.deployed[strategy].Ledger()
    && w' == w.(deployed := w.deployed[strategy := w.deployed[strategy].Drawn(x)], token := w'.token,
                tracked := w.tracked[strategy := SaturatingSub(Get(w.tracked, strategy), x)])
    && Moved(w.token, w'.token, w.deployed[strategy].Custody(strategy), w.self, x)
  }

  lemma PullOutcome(w: World, strategy: Address, amount: int)
    requires Apart(w.self, w.deployed) && amount > 0 && PullFrom(w, strategy, amount).Ok?
    ensures var (w', x) := PullFrom(w, strategy, amount).value;
            && strategy in w.deployed && 0 < x <= amount
            && w.deployed[strategy].CanPay(w.self, x) && Pulled(w, w', strategy, x)
  {
    WithdrawOutcome(w.deployed[strategy], strategy, w.token, w.self, amount);
  }

  /** What a strategy returns beyond what is tracked there. */
  function Surplus(w: World, strategy: Address, x: nat): nat {
    if x > Get(w.tracked, strategy) then x - Get(w.tracked, strategy) else 0
  }

  /** Total assets never fall in a pull, and rise by exactly what the strategy returned
      beyond its tracked balance. */
  lemma PulledEffect(w: World, w': World, strategy: Address, x: nat)
    requires NoDuplicates(w.strategies) && Apart(w.self, w.deployed)
    requires strategy in w.strategies && strategy in w.deployed && Pulled(w, w', strategy, x)
    ensures Raised(w, w') && Idle(w') == Idle(w) + x
    ensures TotalAssets(w') - TotalAssets(w) == Surplus(w, strategy, x)
  {
    TrackedSumPut(w.strategies, w.tracked, strategy, SaturatingSub(Get(w.tracked, strategy), x));
    DrawnFacts(w.deployed[strategy], x);
    OneContract(w.deployed, strategy, w'.deployed[strategy]);
  }

  lemma PullEffect(w: World, strategy: Address, amount: int)
    requires NoDuplicates(w.strategies) && Apart(w.self, w.deployed) && strategy in w.strategies
    requires amount > 0 && PullFrom(w, strategy, amount).Ok?
    ensures var (w', x) := PullFrom(w, strategy, amount).value;
            && 0 < x <= amount
            && Raised(w, w') && Idle(w') == Idle(w) + x
            && TotalAssets(w') - TotalAssets(w) == Surplus(w, strategy, x)
  {
    PullOutcome(w, strategy, amount);
    var (w', x) := PullFrom(w, strategy, amount).value;
    PulledEffect(w, w', strategy, x);
  }

  /** A hop passes the strategy over, or is a pull of a positive amount within its quote. */
  lemma HopPulls(w: World, strategy: Address, remaining: int) returns (asked: nat)
    requires remaining > 0 && Hop(w, strategy, remaining).Ok?
    ensures strategy in w.deployed
    ensures asked == 0 ==> Hop(w, strategy, remaining).value == (w, remaining)
    ensures asked > 0 ==> asked <= w.deployed[strategy].Available() && PullFrom(w, strategy, asked).Ok?
                          && Hop(w, strategy, remaining).value.0 == PullFrom(w, strategy, asked).value.0
  {
    var available := w.deployed[strategy].Available();
    asked := if available <= 0 then 0 else if remaining < available then remaining else available;
  }

  lemma HopEffect(w: World, strategy: Address, remaining: int)
    requires NoDuplicates(w.strategies) && Apart(w.self, w.deployed) && strategy in w.strategies
    requires remaining > 0 && Hop(w, strategy, remaining).Ok?
    ensures var w1 := Hop(w, strategy, remaining).value.0;
            Raised(w, w1) && Apart(w1.self, w1.deployed)
  {
    var asked := HopPulls(w, strategy, remaining);
    if asked > 0 {
      PullEffect(w, strategy, asked);
      ApartKept(w.self, w.deployed, Hop(w, strategy, remaining).value.0.deployed);
    }
  }

  /** A whole number of pulls, whatever the strategies' quotes and records say. */
  lemma {:induction false} WaterfallEffect(w: World, pending: seq<Address>, remaining: int)
    requires NoDuplicates(w.strategies) && Apart(w.self, w.deployed)
    requires forall s :: s in pending ==> s in w.strategies
    requires Waterfall(w, pending, remaining).Ok?
    ensures Raised(w, Waterfall(w, pending, remaining).value.0)
    decreases |pending|
  {
    if pending != [] && remaining > 0 {
      HopEffect(w, pending[0], remaining);
      var (w1, left) := Hop(w, pending[0], remaining).value;
      WaterfallEffect(w1, pending[1..], left);
      RaisedOnward(w, w1, Waterfall(w1, pending[1..], left).value.0);
    }
  }

  lemma ApartKept(self: Address, before: map<Address, Strategy>, after: map<Address, Strategy>)
    requires Apart(self, before) && SameContracts(before, after)
    ensures Apart(self, after)
  {
    forall s | s in after && after[s].Lending?
      ensures after[s].position.pool.address != self && after[s].position.pool.address !in after
              && after[s].position.admin != self
    {
      assert SameContract(before[s], after[s]);
    }
  }

  lemma RaisedOnward(w: World, w1: World, w2: World)
    requires Raised(w, w1) && Raised(w1, w2)
    ensures Raised(w, w2)
  {
    forall s | s in w.deployed ensures SameContract(w.deployed[s], w2.deployed[s]) {
      assert SameContract(w.deployed[s], w1.deployed[s]) && SameContract(w1.deployed[s], w2.deployed[s]);
    }
  }

  lemma RaisedKeepsWf(w: World, w': World)
    requires Wf(w) && Raised(w, w')
    ensures Wf(w')
  {
    ApartKept(w.self, w.deployed, w'.deployed);
  }

  // ------------------------------------------------------------------ call by call

  lemma IssueEffect(w: World, from: Address, assets: nat, minted: nat)
    requires Wf(w) && Issue(w, from, assets, minted).Ok?
    ensures var (w', m) := Issue(w, from, assets, minted).value;
            && Wf(w') && m == minted
            && w'.supply == w.supply + minted && w'.hwm == w.hwm
            && (from != w.self ==> TotalAssets(w') == TotalAssets(w) + assets)
            && Get(w'.shares, from) == Get(w.shares, from) + minted
            && Sum(w'.token) == Sum(w.token)
  {
    MoveConserves(w.token, from, w.self, assets);
    SumPut(w.shares, from, Get(w.shares, from) + minted);
  }

  lemma DepositEffect(w: World, from: Address, assets: int)
    requires Wf(w) && Deposit(w, from, assets).Ok?
    ensures var (w', minted) := Deposit(w, from, assets).value;
            && Wf(w') && assets > 0 && minted > 0
            && minted == SharesFor(assets, TotalAssets(w), w.supply)
            && w'.supply == w.supply + minted && w'.hwm == w.hwm
            && (from != w.self ==> TotalAssets(w') == TotalAssets(w) + assets)
            && Get(w'.shares, from) == Get(w.shares, from) + minted
            && Sum(w'.token) == Sum(w.token)
  {
    IssueEffect(w, from, assets, Deposit(w, from, assets).value.1);
  }

  /** A payout that went through is a payment after a waterfall for `need`, which does
      nothing when there is no shortfall. */
  lemma PayOutParts(w: World, from: Address, shares: nat, assets: nat) returns (w1: World, need: int)
    requires PayOut(w, from, shares, assets).Ok?
    ensures Waterfall(w, w.strategies, need) == Ok((w1, ()))
    ensures BurnAndPay(w1, from, shares, assets) == PayOut(w, from, shares, assets)
  {
    need := assets - Idle(w);
    w1 := Waterfall(w, w.strategies, need).value.0;
    assert Waterfall(w, w.strategies, need).value.1 == ();
  }

  lemma PayOutEffect(w: World, from: Address, shares: nat, assets: nat)
    requires Wf(w) && PayOut(w, from, shares, assets).Ok?
    ensures var (w', paid) := PayOut(w, from, shares, assets).value;
            && Wf(w') && shares <= w.supply && paid == assets
            && w'.supply == w.supply - shares && w'.hwm == w.hwm
            && (from != w.self ==> TotalAssets(w') >= TotalAssets(w) - paid)
            && Get(w'.shares, from) == Get(w.shares, from) - shares
            && Sum(w'.token) == Sum(w.token)
  {
    var w1, need := PayOutParts(w, from, shares, assets);
    WaterfallEffect(w, w.strategies, need);
    RaisedKeepsWf(w, w1);
    BurnAndPayEffect(w1, from, shares, assets);
  }

  /** Burning and paying touches the share table and the tokens only. */
  lemma BurnAndPayLeaves(w: World, from: Address, shares: nat, assets: nat)
    requires BurnAndPay(w, from, shares, assets).Ok?
    ensures var w' := BurnAndPay(w, from, shares, assets).value.0;
            w' == w.(token := w'.token, shares := w'.shares, supply := w.supply - shares)
  {
  }

  lemma BurnAndPayEffect(w: World, from: Address, shares: nat, assets: nat)
    requires Wf(w) && BurnAndPay(w, from, shares, assets).Ok?
    ensures var (w', paid) := BurnAndPay(w, from, shares, assets).value;
            && Wf(w') && shares <= w.supply && paid == assets
            && w'.supply == w.supply - shares && w'.hwm == w.hwm
            && (from != w.self ==> TotalAssets(w') == TotalAssets(w) - paid)
            && Get(w'.shares, from) == Get(w.shares, from) - shares
            && Sum(w'.token) == Sum(w.token)
  {
    GetAtMostSum(w.shares, from);
    MoveConserves(w.token, w.self, from, assets);
    SumPut(w.shares, from, Get(w.shares, from) - shares);
  }

  lemma RedeemEffect(w: World, from: Address, shares: int)
    requires Wf(w) && Redeem(w, from, shares).Ok?
    ensures var (w', paid) := Redeem(w, from, shares).value;
            && Wf(w') && 0 < shares <= w.supply && paid > 0
            && paid == AssetsFor(shares, TotalAssets(w), w.supply)
            && w'.supply == w.supply - shares && w'.hwm == w.hwm
            && (from != w.self ==> TotalAssets(w') >= TotalAssets(w) - paid)
            && Get(w'.shares, from) == Get(w.shares, from) - shares
            && Sum(w'.token) == Sum(w.token)
  {
    PayOutEffect(w, from, shares, AssetsFor(shares, TotalAssets(w), w.supply));
  }

  lemma TransferEffect(w: World, from: Address, to: Address, amount: int)
    requires Wf(w) && Transfer(w, from, to, amount).Ok?
    ensures var w' := Transfer(w, from, to, amount).value.0;
            && Wf(w') && w' == w.(shares := w'.shares)
            && (from != to ==> Get(w'.shares, from) == Get(w.shares, from) - amount
                               && Get(w'.shares, to) == Get(w.shares, to) + amount)
            && (from == to ==> Get(w'.shares, to) == Get(w.shares, to))
            && (forall a :: a != from && a != to ==> Get(w'.shares, a) == Get(w.shares, a))
            && TotalAssets(w') == TotalAssets(w)
  {
    MoveConserves(w.shares, from, to, amount);
  }

  lemma AddStrategyEffect(w: World, caller: Address, strategy: Address)
    requires Wf(w) && AddStrategy(w, caller, strategy).Ok?
    ensures var w' := AddStrategy(w, caller, strategy).value.0;
            && Wf(w') && w'.supply == w.supply && w'.hwm == w.hwm && w'.token == w.token
            && TotalAssets(w') == TotalAssets(w)
  {
    TrackedSumPut(w.strategies, w.tracked, strategy, 0);
    TrackedSumAppend(w.strategies, w.tracked[strategy := 0], strategy);
  }

  lemma RemoveStrategyEffect(w: World, caller: Address, strategy: Address)
    requires Wf(w) && RemoveStrategy(w, caller, strategy).Ok?
    ensures var w' := RemoveStrategy(w, caller, strategy).value.0;
            && Wf(w') && w'.supply == w.supply && w'.hwm == w.hwm && w'.token == w.token
            && TotalAssets(w') == TotalAssets(w)
  {
    RemoveFacts(w.strategies, strategy);
    TrackedSumDrop(w.strategies, w.tracked, strategy);
  }

  /** Past its guards, an allocation is the funding of a listed strategy. */
  lemma AllocateFunds(w: World, caller: Address, strategy: Address, amount: int)
    requires Allocate(w, caller, strategy, amount).Ok?
    ensures amount > 0 && strategy in w.strategies && strategy in w.deployed
    ensures Allocate(w, caller, strategy, amount) == Fund(w, strategy, amount)
  {
  }

  /** Funding sends the tokens ahead and then has the strategy book them. */
  lemma FundSteps(w: World, strategy: Address, amount: nat) returns (sent: Table, st': Strategy, token': Table)
    requires strategy in w.deployed && Fund(w, strategy, amount).Ok?
    ensures Move(w.token, w.self, strategy, amount) == Some(sent)
    ensures StrategyDeposit(w.deployed[strategy], strategy, sent, w.self, amount) == Ok((st', token'))
    ensures Fund(w, strategy, amount).value.0
            == w.(token := token', deployed := w.deployed[strategy := st'],
                  tracked := w.tracked[strategy := Get(w.tracked, strategy) + amount])
  {
    sent := Move(w.token, w.self, strategy, amount).value;
    var booked := StrategyDeposit(w.deployed[strategy], strategy, sent, w.self, amount).value;
    st', token' := booked.0, booked.1;
  }

  /** What funding does to the contracts and the tokens: the amount goes from the vault to
      the account that holds the strategy's funds. */
  ghost predicate Funded(w: World, w': World, strategy: Address, amount: nat)
    requires strategy in w.deployed
  {
    && strategy in w'.deployed
    && w'.deployed[strategy].Ledger() == w.deployed[strategy].Ledger() + amount
    && SameContract(w.deployed[strategy], w'.deployed[strategy])
    && w' == w.(deployed := w.deployed[strategy := w'.deployed[strategy]], token := w'.token,
                tracked := w.tracked[strategy := Get(w.tracked, strategy) + amount])
    && Moved(w.token, w'.token, w.self, w.deployed[strategy].Custody(strategy), amount)
  }

  lemma FundOutcome(w: World, strategy: Address, amount: nat)
    requires Apart(w.self, w.deployed) && strategy in w.deployed && Fund(w, strategy, amount).Ok?
    ensures Funded(w, Fund(w, strategy, amount).value.0, strategy, amount)
  {
    var sent, st', token' := FundSteps(w, strategy, amount);
    MoveMoves(w.token, w.self, strategy, amount);
    var st := w.deployed[strategy];
    DepositOutcome(st, strategy, sent, w.self, amount);
    if st.Lending? { MovesCompose(w.token, sent, token', w.self, strategy, st.Custody(strategy), amount); }
  }

  lemma FundedEffect(w: World, w': World, strategy: Address, amount: nat)
    requires Wf(w) && strategy in w.strategies && strategy in w.deployed && Funded(w, w', strategy, amount)
    ensures Wf(w') && w'.supply == w.supply && w'.hwm == w.hwm
    ensures TotalAssets(w') == TotalAssets(w) && Idle(w') == Idle(w) - amount
    ensures Sum(w'.token) == Sum(w.token)
  {
    TrackedSumPut(w.strategies, w.tracked, strategy, Get(w.tracked, strategy) + amount);
    ListedPut(w.strategies, w.tracked, strategy, Get(w.tracked, strategy) + amount);
    OneContract(w.deployed, strategy, w'.deployed[strategy]);
    ApartKept(w.self, w.deployed, w'.deployed);
  }

  lemma AllocateEffect(w: World, caller: Address, strategy: Address, amount: int)
    requires Wf(w) && Allocate(w, caller, strategy, amount).Ok?
    ensures var w' := Allocate(w, caller, strategy, amount).value.0;
            && Wf(w') && w'.supply == w.supply && w'.hwm == w.hwm
            && TotalAssets(w') == TotalAssets(w) && Idle(w') == Idle(w) - amount
            && Sum(w'.token) == Sum(w.token)
  {
    AllocateFunds(w, caller, strategy, amount);
    FundOutcome(w, strategy, amount);
    FundedEffect(w, Fund(w, strategy, amount).value.0, strategy, amount);
  }

  lemma DeallocateEffect(w: World, caller: Address, strategy: Address, amount: int)
    requires Wf(w) && Deallocate(w, caller, strategy, amount).Ok?
    ensures var w' := Deallocate(w, caller, strategy, amount).value.0;
            && Wf(w') && w'.supply == w.supply && w'.hwm == w.hwm
            && TotalAssets(w') >= TotalAssets(w) && Sum(w'.token) == Sum(w.token)
  {
    PullEffect(w, strategy, amount);
    RaisedKeepsWf(w, PullFrom(w, strategy, amount).value.0);
  }

  /** What an emergency pull does to the contracts and the tokens. */
  lemma DrainOutcome(w: World, strategy: Address)
    requires Apart(w.self, w.deployed) && DrainFrom(w, strategy).Ok?
    ensures var (w', x) := DrainFrom(w, strategy).value;
            && strategy in w.deployed && x == w.deployed[strategy].EmergencyAmount() && x >= 0
            && w' == w.(deployed := w'.deployed, token := w'.token, tracked := w.tracked[strategy := 0])
            && w'.deployed.Keys == w.deployed.Keys && w'.deployed == w.deployed[strategy := w'.deployed[strategy]]
            && w'.deployed[strategy].Ledger() == 0 && SameContract(w.deployed[strategy], w'.deployed[strategy])
            && Moved(w.token, w'.token, w.deployed[strategy].Custody(strategy), w.self, x)
  {
    assert w.self == w.deployed[strategy].Vault();
    EmergencyOutcome(w.deployed[strategy], strategy, w.token, w.self);
  }

  /** An emergency pull changes total assets by what came back less what was tracked. */
  lemma EmergencyEffect(w: World, caller: Address, strategy: Address)
    requires Wf(w) && EmergencyWithdrawStrategy(w, caller, strategy).Ok?
    ensures var (w', x) := EmergencyWithdrawStrategy(w, caller, strategy).value;
            && Wf(w') && w'.supply == w.supply && w'.hwm == w.hwm
            && strategy in w.deployed && x == w.deployed[strategy].EmergencyAmount()
            && TotalAssets(w') == TotalAssets(w) + x - Get(w.tracked, strategy)
            && Sum(w'.token) == Sum(w.token)
  {
    assert strategy in w.strategies && EmergencyWithdrawStrategy(w, caller, strategy) == DrainFrom(w, strategy);
    DrainOutcome(w, strategy);
    TrackedSumPut(w.strategies, w.tracked, strategy, 0);
    ListedPut(w.strategies, w.tracked, strategy, 0);
    var w' := DrainFrom(w, strategy).value.0;
    OneContract(w.deployed, strategy, w'.deployed[strategy]);
    ApartKept(w.self, w.deployed, w'.deployed);
  }

  lemma UpdateTrackedEffect(w: World, caller: Address, strategy: Address, balance: int)
    requires Wf(w) && UpdateTrackedBalance(w, caller, strategy, balance).Ok?
    ensures var w' := UpdateTrackedBalance(w, caller, strategy, balance).value.0;
            && Wf(w') && w'.supply == w.supply && w'.hwm == w.hwm && w'.token == w.token
            && TotalAssets(w') == TotalAssets(w) - Get(w.tracked, strategy) + balance
  {
    TrackedSumPut(w.strategies, w.tracked, strategy, balance);
    ListedPut(w.strategies, w.tracked, strategy, balance);
  }

  /** A collected fee mints shares against unchanged assets, and leaves supply within
      assets and the mark at par or above -- from any well-formed state. */
  lemma CollectEffect(w: World)
    requires Wf(w) && CollectFees(w).Ok?
    ensures var (w', minted) := CollectFees(w).value;
            && Wf(w') && minted > 0
            && w'.supply == w.supply + minted && w'.token == w.token
            && TotalAssets(w') == TotalAssets(w)
            && w'.supply <= TotalAssets(w')
            && Get(w'.shares, w.settings.feeRecipient) == Get(w.shares, w.settings.feeRecipient) + minted
  {
    var q := FeeFor(TotalAssets(w), w.supply, w.hwm, w.settings.feeBps);
    FeeFacts(TotalAssets(w), w.supply, w.hwm, w.settings.feeBps);
    FeeKeepsSupplyCovered(TotalAssets(w), w.supply, w.hwm, w.settings.feeBps);
    MintFeeEffect(w, q.shares, q.hwm);
  }

  lemma MintFeeEffect(w: World, minted: nat, mark: int)
    requires Wf(w) && mark >= NAV_PRECISION
    ensures var w' := MintFee(w, minted, mark).value.0;
            Wf(w') && TotalAssets(w') == TotalAssets(w)
            && Get(w'.shares, w.settings.feeRecipient) == Get(w.shares, w.settings.feeRecipient) + minted
  {
    SumPut(w.shares, w.settings.feeRecipient, Get(w.shares, w.settings.feeRecipient) + minted);
  }

  // ------------------------------------------------------------------ well-formedness alone

  lemma IssueKeepsWf(w: World, from: Address, assets: nat, minted: nat)
    requires Wf(w) && Issue(w, from, assets, minted).Ok?
    ensures Wf(Issue(w, from, assets, minted).value.0)
  {
    IssueEffect(w, from, assets, minted);
  }

  lemma RedeemKeepsWf(w: World, from: Address, shares: int)
    requires Wf(w) && Redeem(w, from, shares).Ok?
    ensures Wf(Redeem(w, from, shares).value.0)
  {
    RedeemEffect(w, from, shares);
  }

  lemma AllocateKeepsWf(w: World, caller: Address, strategy: Address, amount: int)
    requires Wf(w) && Allocate(w, caller, strategy, amount).Ok?
    ensures Wf(Allocate(w, caller, strategy, amount).value.0)
  {
    AllocateEffect(w, caller, strategy, amount);
  }

  lemma ListKeepsWf(w: World, caller: Address, strategy: Address)
    requires Wf(w)
    ensures AddStrategy(w, caller, strategy).Ok? ==> Wf(AddStrategy(w, caller, strategy).value.0)
    ensures RemoveStrategy(w, caller, strategy).Ok? ==> Wf(RemoveStrategy(w, caller, strategy).value.0)
  {
    if AddStrategy(w, caller, strategy).Ok? { AddStrategyEffect(w, caller, strategy); }
    if RemoveStrategy(w, caller, strategy).Ok? { RemoveStrategyEffect(w, caller, strategy); }
  }

  lemma CollectKeepsWf(w: World)
    requires Wf(w) && CollectFees(w).Ok?
    ensures Wf(CollectFees(w).value.0)
  {
    CollectEffect(w);
  }
}
