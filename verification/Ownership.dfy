/** Who can change what: each part of the vault's state changes only in the calls meant to
    change it, and a holder's shares and tokens go down only by the holder's own calls. */
module Ownership {
  import opened Arith
  import opened Balances
  import opened Results
  import opened Shares
  import opened Strategies
  import opened Model
  import opened Accounting
  import opened Runs
  import opened Calls

  // ------------------------------------------------------------------ one part at a time

  /** Every part of the state that the step is not meant to change is as before. */
  ghost predicate KeepsTheRest(w: World, w': World, step: Step) {
    && w'.self == w.self && SameContracts(w.deployed, w'.deployed)
    && w'.settings == w.settings.(admin := w'.settings.admin, keeper := w'.settings.keeper,
                                  guardian := w'.settings.guardian, paused := w'.settings.paused,
                                  depositCap := w'.settings.depositCap, bridgedMaxAge := w'.settings.bridgedMaxAge)
    && (!step.Administered? ==> w'.settings == w.settings)
    && (!step.TimePassed? ==> w'.now == w.now)
    && (!step.AddBy? && !step.RemoveBy? ==> w'.strategies == w.strategies)
    && (!step.FeesCollected? ==> w'.hwm == w.hwm)
    && (!step.AttestBy? ==> w'.bridged == w.bridged && w'.bridgedAt == w.bridgedAt)
    && (!HolderCall(step) && !step.FeesCollected? ==> w'.shares == w.shares)
    && (!step.DepositBy? && !step.RedeemBy? && !step.FeesCollected? ==> w'.supply == w.supply)
    && (!step.RedeemBy? && !FundsCall(step) && !RecordCall(step) ==> w'.tracked == w.tracked)
    && (!step.RedeemBy? && !FundsCall(step) && !Outside(step) ==> w'.deployed == w.deployed)
    && (!step.DepositBy? && !step.RedeemBy? && !step.TokensSent? && !FundsCall(step) && !Outside(step) ==>
          w'.token == w.token)
  }

  lemma StepKeepsTheRest(w: World, step: Step)
    requires Wf(w)
    ensures KeepsTheRest(w, Apply(w, step), step)
  {
    hide KeepsTheRest;
    if HolderCall(step) {
      HolderCallKeepsTheRest(w, step);
    } else if FundsCall(step) {
      FundsCallKeepsTheRest(w, step);
    } else if RecordCall(step) {
      RecordCallKeepsTheRest(w, step);
    } else if Outside(step) {
      OutsideKeepsTheRest(w, step);
    } else {
      PlainStepKeepsTheRest(w, step);
    }
  }

  lemma PlainStepKeepsTheRest(w: World, step: Step)
    requires w.supply >= 0 && !HolderCall(step) && !FundsCall(step) && !RecordCall(step) && !Outside(step)
    ensures KeepsTheRest(w, Apply(w, step), step)
  {
    hide CollectFees, SameContracts;
    Unchanged(w.deployed);
    CollectionKeepsAll(w);
  }

  lemma CollectionKeepsAll(w: World)
    requires w.supply >= 0
    ensures var w' := After(w, CollectFees(w));
            w' == w.(shares := w'.shares, supply := w'.supply, hwm := w'.hwm)
  {
    hide TotalAssets;
  }

  lemma RecordCallKeepsTheRest(w: World, step: Step)
    requires w.supply >= 0 && RecordCall(step)
    ensures KeepsTheRest(w, Apply(w, step), step)
  {
    hide Apply, SameContracts;
    Unchanged(w.deployed);
    RecordCallKeepsAll(w, step);
  }

  lemma RecordCallKeepsAll(w: World, step: Step)
    requires w.supply >= 0 && RecordCall(step)
    ensures var w' := Apply(w, step);
            w' == w.(strategies := w'.strategies, tracked := w'.tracked)
            && (step.UpdateTrackedBy? ==> w'.strategies == w.strategies)
  {
    hide Remove;
  }

  lemma Unchanged(deployed: map<Address, Strategy>)
    ensures SameContracts(deployed, deployed)
  {
  }

  lemma OutsideKeepsTheRest(w: World, step: Step)
    requires w.supply >= 0 && Outside(step)
    ensures KeepsTheRest(w, Apply(w, step), step)
  {
    hide Apply;
    OutsideKeepsContract(w, step);
    if step.strategy in w.deployed { OneContract(w.deployed, step.strategy, Apply(w, step).deployed[step.strategy]); }
  }

  lemma HolderCallKeepsTheRest(w: World, step: Step)
    requires Wf(w) && HolderCall(step)
    ensures KeepsTheRest(w, Apply(w, step), step)
  {
    assert w.supply >= 0;
    hide Deposit, Redeem, Transfer, Wf;
    match step
    case DepositBy(from, assets) => DepositIff(w, from, assets);
    case TransferBy(from, to, amount) => TransferIff(w, from, to, amount);
    case RedeemBy(from, amount) =>
      if Redeem(w, from, amount).Ok? { var _, _ := RedeemParts(w, from, amount); }
  }

  /** A redemption raises funds and then changes the share table and the tokens. */
  lemma RedeemParts(w: World, from: Address, amount: int) returns (w1: World, need: int)
    requires Wf(w) && Redeem(w, from, amount).Ok?
    ensures Waterfall(w, w.strategies, need) == Ok((w1, ())) && Raised(w, w1)
    ensures var (w', paid) := Redeem(w, from, amount).value;
            && w' == w1.(token := w'.token, shares := w'.shares, supply := w.supply - amount)
            && Carried(w1.token, w'.token, w.self, from, paid) && Gained(w.shares, w'.shares, from, -amount)
  {
    hide Waterfall, PayOut, BurnAndPay, Carried, Gained, TotalAssets, AssetsFor, Raised;
    var assets := AssetsFor(amount, TotalAssets(w), w.supply);
    w1, need := PayOutParts(w, from, amount, assets);
    BurnAndPayMoves(w1, from, amount, assets);
    WaterfallEffect(w, w.strategies, need);
    RaisedShape(w, w1);
  }

  lemma RaisedShape(w: World, w1: World)
    requires Raised(w, w1)
    ensures w1 == w.(deployed := w1.deployed, token := w1.token, tracked := w1.tracked)
  {
  }

  /** A redemption that goes through burns exactly the shares asked for, of the holder and no
      one else, and pays what they are worth, rounded down; shares that the holder does not
      have or that are worth less than a unit are refused as such. */
  lemma RedeemOutcome(w: World, from: Address, amount: int)
    requires Wf(w)
    ensures Redeem(w, from, amount).Ok? ==>
              var (w', paid) := Redeem(w, from, amount).value;
              var x, y := TotalAssets(w) + VIRTUAL_SHARES_OFFSET, w.supply + VIRTUAL_SHARES_OFFSET;
              && 0 < amount <= Get(w.shares, from) && 0 < paid && paid * y <= amount * x < paid * y + y
              && Gained(w.shares, w'.shares, from, -amount) && w'.supply == w.supply - amount
    ensures Redeem(w, from, amount) == Err(InsufficientShares) <==> amount > 0 && amount > Get(w.shares, from)
    ensures amount <= 0
            || (amount <= Get(w.shares, from)
                && amount * (TotalAssets(w) + VIRTUAL_SHARES_OFFSET) < w.supply + VIRTUAL_SHARES_OFFSET)
            <==> Redeem(w, from, amount) == Err(ZeroAmount)
  {
    hide TotalAssets, PayOut, AssetsFor;
    var a, s := TotalAssets(w), w.supply;
    if 0 < amount <= Get(w.shares, from) {
      AssetsForBounds(amount, a, s);
      var r := AssetsFor(amount, a, s);
      if r > 0 {
        MulLe(1, r, s + VIRTUAL_SHARES_OFFSET);
        PayOutRefusals(w, from, amount, r);
      }
      if Redeem(w, from, amount).Ok? { var _, _ := RedeemParts(w, from, amount); }
    }
  }

  /** Paying out fails for want of assets or because a strategy fails, not otherwise. */
  lemma PayOutRefusals(w: World, from: Address, shares: nat, assets: nat)
    requires NoDuplicates(w.strategies) && Apart(w.self, w.deployed) && shares <= Get(w.shares, from)
    ensures PayOut(w, from, shares, assets).Ok? || PayOut(w, from, shares, assets) == Err(InsufficientAssets)
            || PayOut(w, from, shares, assets) == Err(HostTrap)
    ensures PayOut(w, from, shares, assets).Ok? ==> PayOut(w, from, shares, assets).value.1 == assets
  {
    hide Waterfall, BurnAndPay, Raised, NoDuplicates, Apart, TotalAssets;
    var need := assets - Idle(w);
    WaterfallRefusals(w, w.strategies, need);
    if need <= 0 {
      BurnRefusals(w, from, shares, assets);
    } else if Waterfall(w, w.strategies, need).Ok? {
      var w1 := Waterfall(w, w.strategies, need).value.0;
      WaterfallEffect(w, w.strategies, need);
      RaisedShape(w, w1);
      BurnRefusals(w1, from, shares, assets);
    }
  }

  lemma BurnRefusals(w: World, from: Address, shares: nat, assets: nat)
    requires shares <= Get(w.shares, from)
    ensures BurnAndPay(w, from, shares, assets).Ok? || BurnAndPay(w, from, shares, assets) == Err(HostTrap)
    ensures BurnAndPay(w, from, shares, assets).Ok? ==> BurnAndPay(w, from, shares, assets).value.1 == assets
  {
  }

  lemma {:induction false} WaterfallRefusals(w: World, pending: seq<Address>, remaining: int)
    ensures Waterfall(w, pending, remaining).Ok? || Waterfall(w, pending, remaining) == Err(HostTrap)
    decreases |pending|
  {
    if pending != [] && remaining > 0 && Hop(w, pending[0], remaining).Ok? {
      var (w1, left) := Hop(w, pending[0], remaining).value;
      WaterfallRefusals(w1, pending[1..], left);
    }
  }

  lemma BurnAndPayMoves(w: World, from: Address, shares: nat, assets: nat)
    requires BurnAndPay(w, from, shares, assets).Ok?
    ensures var (w', paid) := BurnAndPay(w, from, shares, assets).value;
            && paid == assets && w' == w.(token := w'.token, shares := w'.shares, supply := w.supply - shares)
            && Carried(w.token, w'.token, w.self, from, assets) && Gained(w.shares, w'.shares, from, -(shares as int))
  {
  }

  /** A call that moves funds changes one strategy, the vault's record of it, and the tokens
      of the vault and of the account that holds the strategy's funds. */
  ghost predicate OneStrategyMoved(w: World, w': World, s: Address) {
    && s in w.deployed && s in w'.deployed && SameContract(w.deployed[s], w'.deployed[s])
    && w' == w.(deployed := w.deployed[s := w'.deployed[s]], token := w'.token, tracked := w'.tracked)
    && forall a :: a != w.self && a != w.deployed[s].Custody(s) ==> Get(w'.token, a) == Get(w.token, a)
  }

  lemma FundsCallMoves(w: World, step: Step)
    requires w.supply >= 0 && Apart(w.self, w.deployed) && FundsCall(step)
    ensures Apply(w, step) == w || OneStrategyMoved(w, Apply(w, step), step.strategy)
  {
    hide Allocate, Deallocate, EmergencyWithdrawStrategy, Apart;
    match step
    case AllocateBy(caller, strategy, amount) =>
      if Allocate(w, caller, strategy, amount).Ok? { AllocateOutcome(w, caller, strategy, amount); }
    case DeallocateBy(caller, strategy, amount) => DeallocateIff(w, caller, strategy, amount);
    case EmergencyBy(caller, strategy) =>
      if EmergencyWithdrawStrategy(w, caller, strategy).Ok? { EmergencyReturns(w, caller, strategy); }
  }

  lemma EmergencyReturns(w: World, caller: Address, strategy: Address)
    requires Apart(w.self, w.deployed) && EmergencyWithdrawStrategy(w, caller, strategy).Ok?
    ensures var (w', x) := EmergencyWithdrawStrategy(w, caller, strategy).value;
            Returned(w, w', strategy, x, 0, 0)
  {
    DrainOutcome(w, strategy);
  }

  lemma FundsCallKeepsTheRest(w: World, step: Step)
    requires w.supply >= 0 && Apart(w.self, w.deployed) && FundsCall(step)
    ensures KeepsTheRest(w, Apply(w, step), step)
  {
    hide Apply;
    FundsCallMoves(w, step);
    var w' := Apply(w, step);
    if w' != w { OneContract(w.deployed, step.strategy, w'.deployed[step.strategy]); }
  }

  // ------------------------------------------------------------------ what belongs to a user

  /** The account is none of the contracts'. */
  ghost predicate Private(w: World, user: Address) {
    && user != w.self && user !in w.deployed
    && forall s :: s in w.deployed ==> w.deployed[s].Custody(s) != user
  }

  /** Steps that a user takes. */
  predicate TakenBy(step: Step, user: Address) {
    (HolderCall(step) || step.TokensSent?) && step.from == user
  }

  /** The user has at least as much as before. */
  ghost predicate KeepsOwn(w: World, w': World, user: Address) {
    Get(w'.shares, user) >= Get(w.shares, user) && Get(w'.token, user) >= Get(w.token, user)
  }

  lemma StillPrivate(w: World, w': World, user: Address)
    requires Private(w, user) && w'.self == w.self && SameContracts(w.deployed, w'.deployed)
    ensures Private(w', user)
  {
    forall s | s in w'.deployed ensures w'.deployed[s].Custody(s) != user {
      assert SameContract(w.deployed[s], w'.deployed[s]) && w.deployed[s].Custody(s) != user;
    }
  }

  /** The waterfall takes tokens from the contracts' accounts only. */
  lemma {:induction false} WaterfallSparesUsers(w: World, pending: seq<Address>, remaining: int, user: Address)
    requires Apart(w.self, w.deployed) && Private(w, user) && Waterfall(w, pending, remaining).Ok?
    ensures Get(Waterfall(w, pending, remaining).value.0.token, user) == Get(w.token, user)
    decreases |pending|
  {
    if pending != [] && remaining > 0 {
      var (w1, left) := Hop(w, pending[0], remaining).value;
      HopSparesUsers(w, pending[0], remaining, user);
      WaterfallSparesUsers(w1, pending[1..], left, user);
    }
  }

  lemma HopSparesUsers(w: World, strategy: Address, remaining: int, user: Address)
    requires Apart(w.self, w.deployed) && Private(w, user) && remaining > 0 && Hop(w, strategy, remaining).Ok?
    ensures var w1 := Hop(w, strategy, remaining).value.0;
            Apart(w1.self, w1.deployed) && Private(w1, user) && Get(w1.token, user) == Get(w.token, user)
  {
    var asked := HopPulls(w, strategy, remaining);
    if asked > 0 {
      PullOutcome(w, strategy, asked);
      var (w1, x) := PullFrom(w, strategy, asked).value;
      DrawnFacts(w.deployed[strategy], x);
      OneContract(w.deployed, strategy, w1.deployed[strategy]);
      ApartKept(w.self, w.deployed, w1.deployed);
      StillPrivate(w, w1, user);
    }
  }

  lemma StepSparesUsers(w: World, step: Step, user: Address)
    requires Wf(w) && Private(w, user) && !TakenBy(step, user)
    ensures Private(Apply(w, step), user) && KeepsOwn(w, Apply(w, step), user)
  {
    assert w.supply >= 0 && Apart(w.self, w.deployed);
    hide Wf, Apply, Apart;
    StepKeepsTheRest(w, step);
    StillPrivate(w, Apply(w, step), user);
    if HolderCall(step) {
      HolderCallSparesUsers(w, step, user);
    } else if FundsCall(step) {
      FundsCallSparesUsers(w, step, user);
    } else if Outside(step) || step.FeesCollected? || step.TokensSent? {
      OtherStepSparesUsers(w, step, user);
    }
  }

  lemma HolderCallSparesUsers(w: World, step: Step, user: Address)
    requires Wf(w) && Private(w, user) && HolderCall(step) && step.from != user
    ensures KeepsOwn(w, Apply(w, step), user)
  {
    assert w.supply >= 0;
    hide Deposit, Redeem, Transfer, Wf, Private, TotalAssets;
    match step
    case DepositBy(from, assets) =>
      DepositIff(w, from, assets);
      assert user != w.self by { UserIsNotTheVault(w, user); }
    case TransferBy(from, to, amount) => TransferIff(w, from, to, amount);
    case RedeemBy(from, amount) =>
      if Redeem(w, from, amount).Ok? { RedeemSparesUsers(w, from, amount, user); }
  }

  lemma UserIsNotTheVault(w: World, user: Address)
    requires Private(w, user)
    ensures user != w.self
  {
  }

  lemma RedeemSparesUsers(w: World, from: Address, amount: int, user: Address)
    requires Wf(w) && Private(w, user) && from != user && Redeem(w, from, amount).Ok?
    ensures KeepsOwn(w, Redeem(w, from, amount).value.0, user)
  {
    assert Apart(w.self, w.deployed);
    hide Redeem, Waterfall, Raised, Private, Wf, Apart;
    var w1, need := RedeemParts(w, from, amount);
    WaterfallSparesUsers(w, w.strategies, need, user);
    UserIsNotTheVault(w, user);
    RaisedShape(w, w1);
  }

  lemma FundsCallSparesUsers(w: World, step: Step, user: Address)
    requires w.supply >= 0 && Apart(w.self, w.deployed) && Private(w, user) && FundsCall(step)
    ensures KeepsOwn(w, Apply(w, step), user)
  {
    hide Apply;
    FundsCallMoves(w, step);
  }

  lemma OtherStepSparesUsers(w: World, step: Step, user: Address)
    requires w.supply >= 0 && Private(w, user) && !TakenBy(step, user)
    requires Outside(step) || step.FeesCollected? || step.TokensSent?
    ensures KeepsOwn(w, Apply(w, step), user)
  {
    if Outside(step) {
      OutsideKeepsContract(w, step);
    } else if step.FeesCollected? {
      FeesSpareUsers(w, user);
    }
  }

  lemma FeesSpareUsers(w: World, user: Address)
    requires w.supply >= 0
    ensures KeepsOwn(w, After(w, CollectFees(w)), user)
  {
    hide TotalAssets;
  }

  ghost predicate Passive(steps: seq<Step>, user: Address) {
    forall i :: 0 <= i < |steps| ==> !TakenBy(steps[i], user)
  }

  /** Over any run, lossy or not, whoever calls what: a user who does nothing loses no
      shares and no tokens. */
  lemma {:induction false} OnlyOwnersSpend(w: World, steps: seq<Step>, user: Address)
    requires Wf(w) && Private(w, user) && Passive(steps, user)
    ensures KeepsOwn(w, Run(w, steps), user)
    decreases |steps|
  {
    hide Apply;
    if steps != [] {
      ApplyKeepsWf(w, steps[0]);
      assert !TakenBy(steps[0], user);
      StepSparesUsers(w, steps[0], user);
      assert forall i :: 0 <= i < |steps| - 1 ==> steps[1..][i] == steps[i + 1];
      OnlyOwnersSpend(Apply(w, steps[0]), steps[1..], user);
    }
  }

  /** What all of the user's shares are quoted at. */
  function Claim(w: World, user: Address): int
    requires w.supply >= 0
  {
    AssetsFor(Get(w.shares, user), TotalAssets(w), w.supply)
  }

  /** So over a loss-free run without fees, the quote for the shares of a user who does
      nothing never falls. */
  lemma PassiveClaimNeverFalls(w: World, steps: seq<Step>, user: Address)
    requires Wf(w) && Private(w, user) && Passive(steps, user)
    requires LossFreeRun(w, steps) && forall i :: 0 <= i < |steps| ==> !steps[i].FeesCollected?
    ensures Run(w, steps).supply >= 0 && Claim(Run(w, steps), user) >= Claim(w, user)
  {
    OnlyOwnersSpend(w, steps, user);
    PriceNeverFalls(w, steps);
    var end := Run(w, steps);
    ClaimGrows(Get(w.shares, user), TotalAssets(w), w.supply, Get(end.shares, user), TotalAssets(end), end.supply);
  }

  lemma ClaimGrows(h1: nat, a1: nat, s1: nat, h2: nat, a2: nat, s2: nat)
    requires h1 <= h2 && PriceAtLeast(a2, s2, a1, s1)
    ensures AssetsFor(h2, a2, s2) >= AssetsFor(h1, a1, s1)
  {
    var q := AssetsFor(h1, a1, s1);
    var x1, y1, x2, y2 :=
      a1 + VIRTUAL_SHARES_OFFSET, s1 + VIRTUAL_SHARES_OFFSET, a2 + VIRTUAL_SHARES_OFFSET, s2 + VIRTUAL_SHARES_OFFSET;
    AssetsForBounds(h1, a1, s1);
    QuoteAtHigherPrice(q, h1, x1, y1, x2, y2);
    MulLe(h1, h2, x2);
    MulLe(0, q, y2);
    FloorAtLeast(h2 * x2, y2, q);
  }

  lemma QuoteAtHigherPrice(q: nat, h: nat, x1: int, y1: int, x2: int, y2: int)
    requires y1 > 0 && y2 > 0 && q * y1 <= h * x1 && x1 * y2 <= x2 * y1
    ensures q * y2 <= h * x2
  {
    MulLe(q * y1, h * x1, y2);
    MulLe(x1 * y2, x2 * y1, h);
    assert (q * y1) * y2 == (q * y2) * y1;
    assert (h * x1) * y2 == (x1 * y2) * h;
    assert (x2 * y1) * h == (h * x2) * y1;
    MulCancelLe(q * y2, h * x2, y1);
  }

  // ------------------------------------------------------------------ the strategy list over runs

  /** A removed strategy stays out until the admin lists it again: whatever is called in
      between, nothing is recorded for it and every call for it is refused. */
  lemma RemovedStaysOut(w: World, admin: Address, strategy: Address, steps: seq<Step>)
    requires Wf(w) && RemoveStrategy(w, admin, strategy).Ok?
    requires forall i :: 0 <= i < |steps| ==> !(steps[i].AddBy? && steps[i].strategy == strategy)
    ensures var w1 := RemoveStrategy(w, admin, strategy).value.0;
            Wf(w1) && Unlisted(Run(w1, steps), strategy)
  {
    hide RemoveStrategy, Allocate, Deallocate, EmergencyWithdrawStrategy, UpdateTrackedBalance, Unlisted, TotalAssets;
    RemoveStrategyEffect(w, admin, strategy);
    RemoveStrategyIff(w, admin, strategy);
    var w1 := RemoveStrategy(w, admin, strategy).value.0;
    StaysOut(w1, strategy, steps);
    RunKeepsWf(w1, steps);
    UnlistedIsRefused(Run(w1, steps), strategy);
  }

  lemma UnlistedIsRefused(w: World, strategy: Address)
    requires Wf(w) && strategy !in w.strategies
    ensures Unlisted(w, strategy)
  {
  }

  /** The vault neither counts the strategy nor lets anyone do anything with it. */
  ghost predicate Unlisted(w: World, strategy: Address) {
    && strategy !in w.strategies && Get(w.tracked, strategy) == 0
    && (forall caller, amount: int :: amount > 0 ==>
          Allocate(w, caller, strategy, amount)
          == Err(if caller == w.settings.keeper then StrategyNotActive else Unauthorized))
    && (forall caller, amount: int :: amount > 0 ==>
          Deallocate(w, caller, strategy, amount)
          == Err(if caller == w.settings.keeper then StrategyNotActive else Unauthorized))
    && (forall caller, balance: int :: balance >= 0 ==>
          UpdateTrackedBalance(w, caller, strategy, balance)
          == Err(if caller == w.settings.keeper then StrategyNotActive else Unauthorized))
    && (forall caller ::
          EmergencyWithdrawStrategy(w, caller, strategy)
          == Err(if caller == w.settings.admin || caller == w.settings.guardian then StrategyNotActive
                 else Unauthorized))
  }

  lemma {:induction false} StaysOut(w: World, strategy: Address, steps: seq<Step>)
    requires Wf(w) && strategy !in w.strategies
    requires forall i :: 0 <= i < |steps| ==> !(steps[i].AddBy? && steps[i].strategy == strategy)
    ensures strategy !in Run(w, steps).strategies
    decreases |steps|
  {
    hide Apply;
    if steps != [] {
      ApplyKeepsWf(w, steps[0]);
      StepKeepsOut(w, strategy, steps[0]);
      assert forall i :: 0 <= i < |steps| - 1 ==> steps[1..][i] == steps[i + 1];
      StaysOut(Apply(w, steps[0]), strategy, steps[1..]);
    }
  }

  lemma StepKeepsOut(w: World, strategy: Address, step: Step)
    requires Wf(w) && strategy !in w.strategies && !(step.AddBy? && step.strategy == strategy)
    ensures strategy !in Apply(w, step).strategies
  {
    hide AddStrategy, RemoveStrategy;
    if step.AddBy? {
      AddStrategyIff(w, step.caller, step.strategy);
    } else if step.RemoveBy? {
      RemoveStrategyIff(w, step.caller, step.strategy);
    } else {
      StepKeepsTheRest(w, step);
    }
  }
}
