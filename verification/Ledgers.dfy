/** The two ledgers: what the vault has recorded for a strategy, what the strategy has
    recorded for itself, and the tokens the strategy actually holds. */
module Ledgers {
  import opened Balances
  import opened Shares
  import opened Strategies
  import opened Model
  import opened Accounting
  import opened Runs

  /** Vault record <= strategy record <= tokens held, for every deployed strategy, whether
      the vault lists it or not; a lending strategy's tokens are in its pool. */
  ghost predicate Agree(w: World) {
    forall s :: s in w.deployed ==> AgreeAt(w, s)
  }

  predicate AgreeAt(w: World, s: Address)
    requires s in w.deployed
  {
    var st := w.deployed[s];
    Get(w.tracked, s) <= st.Ledger() && (st.Mock? ==> st.Ledger() <= Get(w.token, s))
  }

  /** The two records are the same. */
  ghost predicate Exact(w: World) {
    forall s :: s in w.deployed ==> Get(w.tracked, s) == w.deployed[s].Ledger()
  }

  /** Everything listed is a deployed strategy that serves this vault. */
  ghost predicate Registered(w: World) {
    forall s :: s in w.strategies ==> s in w.deployed && w.deployed[s].Vault() == w.self
  }

  /** A change made by calls between the vault and its strategies: whatever agreed before
      still does, and the contracts are the same. */
  ghost predicate KeepsLedgers(w: World, w': World) {
    && (Agree(w) ==> Agree(w'))
    && (Exact(w) ==> Exact(w'))
    && w'.self == w.self && w'.strategies == w.strategies && SameContracts(w.deployed, w'.deployed)
  }

  /** One strategy's state, its record at the vault and its tokens have changed, the
      records by the same amount or so that they still agree. */
  lemma OneChanged(w: World, w': World, s: Address)
    requires Apart(w.self, w.deployed) && s in w.deployed && w'.self == w.self && w'.strategies == w.strategies
    requires s in w'.deployed && w'.deployed == w.deployed[s := w'.deployed[s]]
    requires SameContract(w.deployed[s], w'.deployed[s])
    requires forall a :: a != s ==> Get(w'.tracked, a) == Get(w.tracked, a)
    requires forall a :: a != s && a != w.self && a != w.deployed[s].Custody(s) ==> Get(w'.token, a) == Get(w.token, a)
    requires AgreeAt(w, s) ==> AgreeAt(w', s)
    requires Get(w.tracked, s) == w.deployed[s].Ledger() ==> Get(w'.tracked, s) == w'.deployed[s].Ledger()
    ensures KeepsLedgers(w, w')
  {
    OneContract(w.deployed, s, w'.deployed[s]);
    if Agree(w) {
      forall a | a in w'.deployed ensures AgreeAt(w', a) { assert AgreeAt(w, a); }
    }
  }

  /** Saturation is harmless: a strategy that returns more than was tracked still holds
      at least what remains tracked. */
  lemma PullKeepsLedgers(w: World, strategy: Address, amount: int)
    requires Apart(w.self, w.deployed) && amount > 0 && PullFrom(w, strategy, amount).Ok?
    ensures KeepsLedgers(w, PullFrom(w, strategy, amount).value.0)
  {
    PullOutcome(w, strategy, amount);
    var (w', x) := PullFrom(w, strategy, amount).value;
    PulledKeepsLedgers(w, w', strategy, x);
  }

  lemma PulledKeepsLedgers(w: World, w': World, strategy: Address, x: nat)
    requires Apart(w.self, w.deployed) && strategy in w.deployed && Pulled(w, w', strategy, x)
    requires w.deployed[strategy].CanPay(w.self, x)
    ensures KeepsLedgers(w, w')
  {
    DrawnFacts(w.deployed[strategy], x);
    OneChanged(w, w', strategy);
  }

  lemma {:induction false} WaterfallKeepsLedgers(w: World, pending: seq<Address>, remaining: int)
    requires Apart(w.self, w.deployed) && Waterfall(w, pending, remaining).Ok?
    ensures KeepsLedgers(w, Waterfall(w, pending, remaining).value.0)
    decreases |pending|
  {
    if pending != [] && remaining > 0 {
      var asked := HopPulls(w, pending[0], remaining);
      var (w1, left) := Hop(w, pending[0], remaining).value;
      if asked > 0 { PullKeepsLedgers(w, pending[0], asked); }
      HopKept(w, w1);
      WaterfallKeepsLedgers(w1, pending[1..], left);
      KeptOnward(w, w1, Waterfall(w1, pending[1..], left).value.0);
    }
  }

  lemma HopKept(w: World, w1: World)
    requires Apart(w.self, w.deployed) && (w1 == w || KeepsLedgers(w, w1))
    ensures KeepsLedgers(w, w1) && Apart(w1.self, w1.deployed)
  {
    ApartKept(w.self, w.deployed, w1.deployed);
  }

  lemma KeptOnward(w: World, w1: World, w2: World)
    requires KeepsLedgers(w, w1) && KeepsLedgers(w1, w2)
    ensures KeepsLedgers(w, w2)
  {
    forall s | s in w.deployed ensures SameContract(w.deployed[s], w2.deployed[s]) {
      assert SameContract(w.deployed[s], w1.deployed[s]) && SameContract(w1.deployed[s], w2.deployed[s]);
    }
  }

  lemma PayOutKeepsLedgers(w: World, from: Address, shares: nat, assets: nat)
    requires Wf(w) && PayOut(w, from, shares, assets).Ok?
    ensures KeepsLedgers(w, PayOut(w, from, shares, assets).value.0)
  {
    var w1, need := PayOutParts(w, from, shares, assets);
    WaterfallKeepsLedgers(w, w.strategies, need);
    HopKept(w, w1);
    var w' := PayOut(w, from, shares, assets).value.0;
    MoveConserves(w1.token, w1.self, from, assets);
    TokensFromOutside(w1, w');
    KeptOnward(w, w1, w');
  }

  /** Payments that take nothing from a strategy leave the ledgers in agreement. */
  lemma TokensFromOutside(w: World, w': World)
    requires w'.self == w.self && w'.strategies == w.strategies && w'.deployed == w.deployed && w'.tracked == w.tracked
    requires forall s :: s in w.deployed ==> Get(w'.token, s) >= Get(w.token, s)
    ensures KeepsLedgers(w, w')
  {
    if Agree(w) {
      forall s | s in w'.deployed ensures AgreeAt(w', s) { assert AgreeAt(w, s); }
    }
  }

  lemma AllocateKeepsLedgers(w: World, caller: Address, strategy: Address, amount: int)
    requires Apart(w.self, w.deployed) && Allocate(w, caller, strategy, amount).Ok?
    ensures KeepsLedgers(w, Allocate(w, caller, strategy, amount).value.0)
  {
    AllocateFunds(w, caller, strategy, amount);
    FundOutcome(w, strategy, amount);
    OneChanged(w, Fund(w, strategy, amount).value.0, strategy);
  }

  lemma EmergencyKeepsLedgers(w: World, caller: Address, strategy: Address)
    requires Apart(w.self, w.deployed) && EmergencyWithdrawStrategy(w, caller, strategy).Ok?
    ensures KeepsLedgers(w, EmergencyWithdrawStrategy(w, caller, strategy).value.0)
  {
    DrainOutcome(w, strategy);
    OneChanged(w, DrainFrom(w, strategy).value.0, strategy);
  }

  // ------------------------------------------------------------------ runs

  /** Steps that keep the ledgers in agreement: users are not strategies, yield comes
      with its tokens, the keeper never reports more than the strategy has recorded, and
      only deployed strategies of this vault are listed. */
  ghost predicate Matched(w: World, step: Step) {
    match step
    case DepositBy(from, _) => from !in w.deployed
    case TokensSent(from, _, _) => from !in w.deployed
    case AddBy(_, strategy) => strategy in w.deployed && w.deployed[strategy].Vault() == w.self
    case YieldAccrued(_, amount, minted) => 0 <= amount <= minted
    case UpdateTrackedBy(_, strategy, balance) => strategy in w.deployed ==> balance <= w.deployed[strategy].Ledger()
    case _ => true
  }

  /** The matched steps that move both records together. */
  predicate Silent(step: Step) {
    !step.YieldAccrued? && !step.UpdateTrackedBy?
  }

  /** What a matched step keeps. */
  ghost predicate Kept(w: World, w': World, silent: bool) {
    && Agree(w') && Registered(w') && SameContracts(w.deployed, w'.deployed)
    && (Exact(w) && silent ==> Exact(w'))
  }

  lemma StepKeepsLedgers(w: World, step: Step)
    requires Wf(w) && Matched(w, step) && Agree(w) && Registered(w)
    ensures Kept(w, Apply(w, step), Silent(step))
  {
    if step.RedeemBy? || FundsCall(step) {
      StrategyCallKeepsLedgers(w, step);
      KeptByCall(w, Apply(w, step));
    } else if RecordCall(step) {
      RecordCallKeepsLedgers(w, step);
    } else if Outside(step) {
      OutsideKeepsLedgers(w, step);
    } else {
      PaymentKeepsLedgers(w, step);
      KeptByCall(w, Apply(w, step));
    }
  }

  lemma KeptByCall(w: World, w': World)
    requires Agree(w) && Registered(w) && KeepsLedgers(w, w')
    ensures Kept(w, w', true) && Kept(w, w', false)
  {
    forall s | s in w'.strategies ensures s in w'.deployed && w'.deployed[s].Vault() == w'.self {
      assert SameContract(w.deployed[s], w'.deployed[s]);
    }
  }

  lemma StrategyCallKeepsLedgers(w: World, step: Step)
    requires Wf(w) && (step.RedeemBy? || FundsCall(step))
    ensures KeepsLedgers(w, Apply(w, step))
  {
    if step.RedeemBy? {
      if Redeem(w, step.from, step.amount).Ok? { RedeemKeepsLedgers(w, step.from, step.amount); }
    } else if step.AllocateBy? {
      if Allocate(w, step.caller, step.strategy, step.amount).Ok? {
        AllocateKeepsLedgers(w, step.caller, step.strategy, step.amount);
      }
    } else if step.DeallocateBy? {
      if Deallocate(w, step.caller, step.strategy, step.amount).Ok? { PullKeepsLedgers(w, step.strategy, step.amount); }
    } else {
      if EmergencyWithdrawStrategy(w, step.caller, step.strategy).Ok? {
        EmergencyKeepsLedgers(w, step.caller, step.strategy);
      }
    }
  }

  lemma RedeemKeepsLedgers(w: World, from: Address, amount: int)
    requires Wf(w) && Redeem(w, from, amount).Ok?
    ensures KeepsLedgers(w, Redeem(w, from, amount).value.0)
  {
    PayOutKeepsLedgers(w, from, amount, AssetsFor(amount, TotalAssets(w), w.supply));
  }

  /** The remaining steps leave strategies alone and at most send tokens from outside. */
  lemma PaymentKeepsLedgers(w: World, step: Step)
    requires Wf(w) && Matched(w, step)
    requires !step.RedeemBy? && !FundsCall(step) && !RecordCall(step) && !Outside(step)
    ensures KeepsLedgers(w, Apply(w, step))
  {
    hide KeepsLedgers, Deposit, Redeem, Allocate, Deallocate, EmergencyWithdrawStrategy;
    var w' := Apply(w, step);
    if step.DepositBy? {
      if Deposit(w, step.from, step.assets).Ok? { IssueKeepsLedgers(w, step.from, step.assets); }
    } else if step.TokensSent? {
      if Move(w.token, step.from, step.to, step.amount).Some? {
        MoveConserves(w.token, step.from, step.to, step.amount);
      }
    }
    TokensFromOutside(w, w');
  }

  lemma IssueKeepsLedgers(w: World, from: Address, assets: int)
    requires from !in w.deployed && w.self !in w.deployed && Deposit(w, from, assets).Ok?
    ensures var w' := Deposit(w, from, assets).value.0;
            && w'.self == w.self && w'.strategies == w.strategies
            && w'.deployed == w.deployed && w'.tracked == w.tracked
            && forall s :: s in w.deployed ==> Get(w'.token, s) >= Get(w.token, s)
  {
    MoveConserves(w.token, from, w.self, assets);
  }

  lemma RecordCallKeepsLedgers(w: World, step: Step)
    requires Wf(w) && Matched(w, step) && Agree(w) && Registered(w) && RecordCall(step)
    ensures Kept(w, Apply(w, step), Silent(step))
  {
    if step.AddBy? {
      ListingKeepsLedgers(w, step.caller, step.strategy);
    } else if step.RemoveBy? {
      DelistingKeepsLedgers(w, step.caller, step.strategy);
    } else {
      ReportKeepsLedgers(w, step.caller, step.strategy, step.balance);
    }
  }

  /** Listing starts a strategy at zero, and it was at zero before ... */
  lemma ListingKeepsLedgers(w: World, caller: Address, strategy: Address)
    requires Wf(w) && Agree(w) && Registered(w)
    requires strategy in w.deployed && w.deployed[strategy].Vault() == w.self
    ensures Kept(w, After(w, AddStrategy(w, caller, strategy)), true)
  {
    SameRecords(w, After(w, AddStrategy(w, caller, strategy)));
  }

  /** ... and delisting drops a zero, so a strategy that is removed and added again is
      tracked as before. */
  lemma DelistingKeepsLedgers(w: World, caller: Address, strategy: Address)
    requires Wf(w) && Agree(w) && Registered(w)
    ensures Kept(w, After(w, RemoveStrategy(w, caller, strategy)), true)
  {
    RemoveFacts(w.strategies, strategy);
    SameRecords(w, After(w, RemoveStrategy(w, caller, strategy)));
  }

  lemma SameRecords(w: World, w': World)
    requires w'.deployed == w.deployed && w'.token == w.token
    requires forall s :: Get(w'.tracked, s) == Get(w.tracked, s)
    ensures (Agree(w) ==> Agree(w')) && (Exact(w) ==> Exact(w')) && SameContracts(w.deployed, w'.deployed)
  {
    if Agree(w) {
      forall s | s in w'.deployed ensures AgreeAt(w', s) { assert AgreeAt(w, s); }
    }
  }

  lemma ReportKeepsLedgers(w: World, caller: Address, strategy: Address, balance: int)
    requires Wf(w) && Agree(w) && Registered(w)
    requires strategy in w.deployed ==> balance <= w.deployed[strategy].Ledger()
    ensures Kept(w, After(w, UpdateTrackedBalance(w, caller, strategy, balance)), false)
  {
    var w' := After(w, UpdateTrackedBalance(w, caller, strategy, balance));
    forall s | s in w'.deployed ensures AgreeAt(w', s) { assert AgreeAt(w, s); }
  }

  /** Yield arrives with its tokens; health, pause and markets are not part of the
      records. */
  lemma OutsideKeepsLedgers(w: World, step: Step)
    requires Wf(w) && Matched(w, step) && Agree(w) && Registered(w) && Outside(step)
    ensures Kept(w, Apply(w, step), Silent(step))
  {
    OutsideKeepsContract(w, step);
    var w' := Apply(w, step);
    if step.strategy in w.deployed {
      OneContract(w.deployed, step.strategy, w'.deployed[step.strategy]);
      OutsideAgrees(w, step);
      forall s | s in w'.deployed ensures AgreeAt(w', s) { assert AgreeAt(w, s); }
    }
  }

  lemma OutsideAgrees(w: World, step: Step)
    requires w.supply >= 0 && Matched(w, step) && Outside(step) && step.strategy in w.deployed
    requires AgreeAt(w, step.strategy)
    ensures var w' := Apply(w, step);
            && step.strategy in w'.deployed && AgreeAt(w', step.strategy)
            && (Silent(step) ==> w'.deployed[step.strategy].Ledger() == w.deployed[step.strategy].Ledger())
  {
  }

  ghost predicate MatchedRun(w: World, steps: seq<Step>)
    requires Wf(w)
    decreases |steps|
  {
    steps == [] ||
    (Matched(w, steps[0]) &&
     (ApplyKeepsWf(w, steps[0]); MatchedRun(Apply(w, steps[0]), steps[1..])))
  }

  /** The ledgers agree after every matched run, over the same contracts, and stay equal
      when no yield is accrued and no report is made. */
  lemma {:induction false} LedgersAgreeAlways(w: World, steps: seq<Step>)
    requires Wf(w) && MatchedRun(w, steps) && Agree(w) && Registered(w)
    ensures Kept(w, Run(w, steps), forall i :: 0 <= i < |steps| ==> Silent(steps[i]))
    decreases |steps|
  {
    if steps != [] {
      ApplyKeepsWf(w, steps[0]);
      StepKeepsLedgers(w, steps[0]);
      var w1 := Apply(w, steps[0]);
      LedgersAgreeAlways(w1, steps[1..]);
      var allSilent := forall i :: 0 <= i < |steps| ==> Silent(steps[i]);
      if allSilent {
        assert Silent(steps[0]);
        assert forall i :: 0 <= i < |steps| - 1 ==> steps[1..][i] == steps[i + 1];
      }
      var restSilent := forall i :: 0 <= i < |steps| - 1 ==> Silent(steps[1..][i]);
      KeptAcross(w, w1, Run(w1, steps[1..]), Silent(steps[0]), restSilent, allSilent);
    }
  }

  lemma KeptAcross(w: World, w1: World, w2: World, first: bool, rest: bool, all: bool)
    requires Kept(w, w1, first) && Kept(w1, w2, rest) && (all ==> first && rest)
    ensures Kept(w, w2, all)
  {
    forall s | s in w.deployed ensures SameContract(w.deployed[s], w2.deployed[s]) {
      assert SameContract(w.deployed[s], w1.deployed[s]) && SameContract(w1.deployed[s], w2.deployed[s]);
    }
  }
}
