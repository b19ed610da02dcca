/** Whole runs: any sequence of calls to the vault, the strategies and the token, with
    time passing in between.  A call that is refused leaves the state as it was. */
module Runs {
  import opened Balances
  import opened Shares
  import opened Positions
  import opened Strategies
  import opened Model
  import opened Accounting

  datatype Step =
    | DepositBy(from: Address, assets: int)
    | RedeemBy(from: Address, amount: int)
    | TransferBy(from: Address, to: Address, amount: int)
    | AddBy(caller: Address, strategy: Address)
    | RemoveBy(caller: Address, strategy: Address)
    | AllocateBy(caller: Address, strategy: Address, amount: int)
    | DeallocateBy(caller: Address, strategy: Address, amount: int)
    | EmergencyBy(caller: Address, strategy: Address)
    | AttestBy(caller: Address, balance: int)
    | UpdateTrackedBy(caller: Address, strategy: Address, balance: int)
    | FeesCollected
      // `simulate_yield` on a strategy, together with the tokens minted to it
    | YieldAccrued(strategy: Address, amount: int, minted: nat)
    | HealthSet(strategy: Address, healthy: bool)
      // interest and other users of a lending strategy's pool, and its pause switch
    | MarketMoved(strategy: Address, market: Market)
    | LendingPaused(strategy: Address, paused: bool)
      // a plain token transfer, which may donate to the vault or to a strategy
    | TokensSent(from: Address, to: Address, amount: int)
      // any sequence of role, pause, cap and attestation-age changes
    | Administered(admin: Address, keeper: Address, guardian: Address, paused: bool, cap: int, maxAge: nat)
    | TimePassed(seconds: nat)

  function After<T>(w: World, reply: Reply<T>): World {
    if reply.Ok? then reply.value.0 else w
  }

  function Apply(w: World, step: Step): World
    requires w.supply >= 0
  {
    match step
    case DepositBy(from, assets) => After(w, Deposit(w, from, assets))
    case RedeemBy(from, amount) => After(w, Redeem(w, from, amount))
    case TransferBy(from, to, amount) => After(w, Transfer(w, from, to, amount))
    case AddBy(caller, strategy) => After(w, AddStrategy(w, caller, strategy))
    case RemoveBy(caller, strategy) => After(w, RemoveStrategy(w, caller, strategy))
    case AllocateBy(caller, strategy, amount) => After(w, Allocate(w, caller, strategy, amount))
    case DeallocateBy(caller, strategy, amount) => After(w, Deallocate(w, caller, strategy, amount))
    case EmergencyBy(caller, strategy) => After(w, EmergencyWithdrawStrategy(w, caller, strategy))
    case AttestBy(caller, balance) => After(w, AttestBridgedBalance(w, caller, balance))
    case UpdateTrackedBy(caller, strategy, balance) => After(w, UpdateTrackedBalance(w, caller, strategy, balance))
    case FeesCollected => After(w, CollectFees(w))
    case YieldAccrued(strategy, amount, minted) =>
      if strategy !in w.deployed || w.deployed[strategy].Lending? then w else
      var m := w.deployed[strategy];
      w.(token := w.token[strategy := Get(w.token, strategy) + minted],
         deployed := w.deployed[strategy := m.(balance := m.balance + amount)])
    case HealthSet(strategy, healthy) =>
      if strategy !in w.deployed || w.deployed[strategy].Lending? then w else
      w.(deployed := w.deployed[strategy := w.deployed[strategy].(healthy := healthy)])
    case MarketMoved(strategy, market) =>
      if strategy !in w.deployed || w.deployed[strategy].Mock? then w else
      var p := w.deployed[strategy].position;
      w.(deployed := w.deployed[strategy := Lending(p.(pool := AtMarket(p.pool, market)))])
    case LendingPaused(strategy, paused) =>
      if strategy !in w.deployed || w.deployed[strategy].Mock? then w else
      w.(deployed := w.deployed[strategy := Lending(w.deployed[strategy].position.(paused := paused))])
    case TokensSent(from, to, amount) =>
      (match Move(w.token, from, to, amount)
       case None => w
       case Some(token') => w.(token := token'))
    case Administered(admin, keeper, guardian, paused, cap, maxAge) =>
      w.(settings := w.settings.(admin := admin, keeper := keeper, guardian := guardian, paused := paused,
                                 depositCap := cap, bridgedMaxAge := maxAge))
    case TimePassed(seconds) => w.(now := w.now + seconds)
  }

  // ------------------------------------------------------------------ what no call can break

  /** A report below the vault's record, or an emergency pull that returns less. */
  predicate WritesOff(w: World, step: Step) {
    || (step.UpdateTrackedBy? && step.balance < Get(w.tracked, step.strategy))
    || (step.EmergencyBy? && step.strategy in w.deployed
        && w.deployed[step.strategy].EmergencyAmount() < Get(w.tracked, step.strategy))
  }

  /** Calls by which funds move between the vault and its strategies. */
  predicate FundsCall(step: Step) {
    step.AllocateBy? || step.DeallocateBy? || step.EmergencyBy?
  }

  lemma FundsCallEffect(w: World, step: Step)
    requires Wf(w) && FundsCall(step)
    ensures var w' := Apply(w, step);
            && Wf(w') && w'.supply == w.supply && Sum(w'.token) == Sum(w.token)
            && (!WritesOff(w, step) ==> TotalAssets(w') >= TotalAssets(w))
  {
    hide Allocate, Deallocate, EmergencyWithdrawStrategy, Wf;
    match step
    case AllocateBy(caller, strategy, amount) =>
      if Allocate(w, caller, strategy, amount).Ok? { AllocateEffect(w, caller, strategy, amount); }
    case DeallocateBy(caller, strategy, amount) =>
      if Deallocate(w, caller, strategy, amount).Ok? { DeallocateEffect(w, caller, strategy, amount); }
    case EmergencyBy(caller, strategy) =>
      if EmergencyWithdrawStrategy(w, caller, strategy).Ok? { EmergencyEffect(w, caller, strategy); }
  }

  /** Calls that change the vault's list or records without moving funds. */
  predicate RecordCall(step: Step) {
    step.AddBy? || step.RemoveBy? || step.UpdateTrackedBy?
  }

  lemma RecordCallEffect(w: World, step: Step)
    requires Wf(w) && RecordCall(step)
    ensures var w' := Apply(w, step);
            && Wf(w') && w'.supply == w.supply && w'.token == w.token
            && (!WritesOff(w, step) ==> TotalAssets(w') >= TotalAssets(w))
  {
    match step
    case AddBy(caller, strategy) =>
      if AddStrategy(w, caller, strategy).Ok? { AddStrategyEffect(w, caller, strategy); }
    case RemoveBy(caller, strategy) =>
      if RemoveStrategy(w, caller, strategy).Ok? { RemoveStrategyEffect(w, caller, strategy); }
    case UpdateTrackedBy(caller, strategy, balance) =>
      if UpdateTrackedBalance(w, caller, strategy, balance).Ok? { UpdateTrackedEffect(w, caller, strategy, balance); }
  }

  /** Calls by share holders. */
  predicate HolderCall(step: Step) {
    step.DepositBy? || step.RedeemBy? || step.TransferBy?
  }

  lemma HolderCallKeepsWf(w: World, step: Step)
    requires Wf(w) && HolderCall(step)
    ensures Wf(Apply(w, step)) && Sum(Apply(w, step).token) == Sum(w.token)
  {
    match step
    case DepositBy(from, assets) =>
      if Deposit(w, from, assets).Ok? { DepositEffect(w, from, assets); }
    case RedeemBy(from, amount) =>
      if Redeem(w, from, amount).Ok? { RedeemEffect(w, from, amount); }
    case TransferBy(from, to, amount) =>
      if Transfer(w, from, to, amount).Ok? { TransferEffect(w, from, to, amount); }
  }

  /** Steps of the strategy contracts and their markets, outside the vault. */
  predicate Outside(step: Step) {
    step.YieldAccrued? || step.HealthSet? || step.MarketMoved? || step.LendingPaused?
  }

  /** They change the state of one contract, and may send tokens to it. */
  lemma OutsideKeepsContract(w: World, step: Step)
    requires w.supply >= 0 && Outside(step)
    ensures var w' := Apply(w, step);
            && w' == w.(deployed := w'.deployed, token := w'.token)
            && (step.strategy !in w.deployed ==> w' == w)
            && (step.strategy in w.deployed ==>
                  && step.strategy in w'.deployed && SameContract(w.deployed[step.strategy], w'.deployed[step.strategy])
                  && w'.deployed == w.deployed[step.strategy := w'.deployed[step.strategy]]
                  && forall a :: a != step.strategy ==> Get(w'.token, a) == Get(w.token, a))
  {
  }

  lemma OutsideEffect(w: World, step: Step)
    requires Wf(w) && Outside(step)
    ensures Wf(Apply(w, step)) && Apply(w, step).supply == w.supply && TotalAssets(Apply(w, step)) == TotalAssets(w)
  {
    hide Apply;
    OutsideKeepsContract(w, step);
    if step.strategy in w.deployed {
      var w' := Apply(w, step);
      OneContract(w.deployed, step.strategy, w'.deployed[step.strategy]);
      ApartKept(w.self, w.deployed, w'.deployed);
    }
  }

  /** Share balances always add up to the supply and the mark never drops below par,
      whatever anyone does. */
  lemma ApplyKeepsWf(w: World, step: Step)
    requires Wf(w)
    ensures Wf(Apply(w, step))
  {
    if HolderCall(step) {
      HolderCallKeepsWf(w, step);
    } else if FundsCall(step) {
      FundsCallEffect(w, step);
    } else if RecordCall(step) {
      RecordCallEffect(w, step);
    } else if Outside(step) {
      OutsideEffect(w, step);
    } else if step.FeesCollected? && CollectFees(w).Ok? {
      CollectKeepsWf(w);
    }
  }

  function Run(w: World, steps: seq<Step>): World
    requires Wf(w)
    decreases |steps|
  {
    if steps == [] then w else
    ApplyKeepsWf(w, steps[0]);
    Run(Apply(w, steps[0]), steps[1..])
  }

  lemma {:induction false} RunKeepsWf(w: World, steps: seq<Step>)
    requires Wf(w)
    ensures Wf(Run(w, steps))
    decreases |steps|
  {
    if steps != [] {
      ApplyKeepsWf(w, steps[0]);
      RunKeepsWf(Apply(w, steps[0]), steps[1..]);
    }
  }

  /** A freshly initialised vault is well formed, and solvent even if someone sent it
      tokens beforehand. */
  lemma InitialState(now: nat, token: Table, deployed: map<Address, Strategy>, self: Address, admin: Address,
                     keeper: Address, guardian: Address, feeRecipient: Address, feeBps: nat, bufferBps: nat)
    requires Apart(self, deployed)
    requires Initialize(now, token, deployed, self, admin, keeper, guardian, feeRecipient, feeBps, bufferBps).Ok?
    ensures var w :=
              Initialize(now, token, deployed, self, admin, keeper, guardian, feeRecipient, feeBps, bufferBps).value;
            Wf(w) && Solvent(w) && w.supply == 0 && TotalAssets(w) == Get(token, self)
  {
  }

  // ------------------------------------------------------------------ loss-free runs

  ghost predicate Solvent(w: World) {
    w.supply <= TotalAssets(w)
  }

  /** The steps that do not write assets off.  Only the vault itself is barred from
      acting as a user. */
  ghost predicate LossFree(w: World, step: Step)
    requires w.supply >= 0
  {
    match step
    case DepositBy(from, _) => from != w.self
    case RedeemBy(from, _) => from != w.self
    case TokensSent(from, _, _) => from != w.self
    case AttestBy(_, _) => EffectiveBridged(Apply(w, step)) >= EffectiveBridged(w)
    case TimePassed(_) => EffectiveBridged(Apply(w, step)) >= EffectiveBridged(w)
    case Administered(_, _, _, _, _, _) => EffectiveBridged(Apply(w, step)) >= EffectiveBridged(w)
    case _ => !WritesOff(w, step)
  }

  ghost predicate LossFreeRun(w: World, steps: seq<Step>)
    requires Wf(w)
    decreases |steps|
  {
    steps == [] ||
    (LossFree(w, steps[0]) &&
     (ApplyKeepsWf(w, steps[0]); LossFreeRun(Apply(w, steps[0]), steps[1..])))
  }

  /** Apart from deposits, redemptions and fees, a loss-free step leaves the supply
      alone and never lowers total assets. */
  lemma OtherStepsKeepAssets(w: World, step: Step)
    requires Wf(w) && LossFree(w, step)
    requires !step.DepositBy? && !step.RedeemBy? && !step.FeesCollected?
    ensures Apply(w, step).supply == w.supply && TotalAssets(Apply(w, step)) >= TotalAssets(w)
  {
    if step.TransferBy? {
      if Transfer(w, step.from, step.to, step.amount).Ok? { TransferEffect(w, step.from, step.to, step.amount); }
    } else if FundsCall(step) {
      FundsCallEffect(w, step);
    } else if RecordCall(step) {
      RecordCallEffect(w, step);
    } else if Outside(step) {
      OutsideEffect(w, step);
    } else if step.TokensSent? && Move(w.token, step.from, step.to, step.amount).Some? {
      MoveConserves(w.token, step.from, step.to, step.amount);
    }
  }

  /** The share price never falls in a loss-free step, fees apart -- including a
      redemption whose waterfall returns more than was tracked. */
  lemma StepKeepsPrice(w: World, step: Step)
    requires Wf(w) && LossFree(w, step) && !step.FeesCollected?
    ensures Apply(w, step).supply >= 0
    ensures PriceAtLeast(TotalAssets(Apply(w, step)), Apply(w, step).supply, TotalAssets(w), w.supply)
  {
    hide PriceAtLeast, Deposit, Redeem;
    ApplyKeepsWf(w, step);
    var a, s := TotalAssets(w), w.supply;
    PriceGrowsWithAssets(a, a, s);
    if step.DepositBy? {
      if Deposit(w, step.from, step.assets).Ok? {
        DepositEffect(w, step.from, step.assets);
        DepositStep(step.assets, a, s);
      }
    } else if step.RedeemBy? {
      if Redeem(w, step.from, step.amount).Ok? { RedeemKeepsPrice(w, step.from, step.amount); }
    } else {
      OtherStepsKeepAssets(w, step);
      PriceGrowsWithAssets(TotalAssets(Apply(w, step)), a, s);
    }
  }

  lemma RedeemKeepsPrice(w: World, from: Address, amount: int)
    requires Wf(w) && from != w.self && Redeem(w, from, amount).Ok?
    ensures var w' := Redeem(w, from, amount).value.0;
            PriceAtLeast(TotalAssets(w'), w'.supply, TotalAssets(w), w.supply)
  {
    hide PriceAtLeast, Redeem;
    var (w', paid) := Redeem(w, from, amount).value;
    var a, s := TotalAssets(w), w.supply;
    RedeemEffect(w, from, amount);
    RedeemStep(amount, a, s);
    PriceGrowsWithAssets(TotalAssets(w'), a - paid, s - amount);
    PriceTransitive(TotalAssets(w'), s - amount, a - paid, s - amount, a, s);
  }

  lemma StepKeepsSolvency(w: World, step: Step)
    requires Wf(w) && Solvent(w) && LossFree(w, step)
    ensures Solvent(Apply(w, step))
  {
    hide Deposit, Redeem, CollectFees, SharesFor, AssetsFor;
    match step
    case DepositBy(from, assets) =>
      if Deposit(w, from, assets).Ok? {
        DepositEffect(w, from, assets);
        DepositStep(assets, TotalAssets(w), w.supply);
      }
    case RedeemBy(from, amount) =>
      if Redeem(w, from, amount).Ok? {
        RedeemEffect(w, from, amount);
        RedeemStep(amount, TotalAssets(w), w.supply);
      }
    case FeesCollected =>
      if CollectFees(w).Ok? { CollectEffect(w); }
    case _ =>
      OtherStepsKeepAssets(w, step);
  }

  /** Supply stays within assets, and the mark at par or above, through every loss-free
      run. */
  lemma {:induction false} LossFreeRunsStaySolvent(w: World, steps: seq<Step>)
    requires Wf(w) && Solvent(w) && LossFreeRun(w, steps)
    ensures Wf(Run(w, steps)) && Solvent(Run(w, steps))
    decreases |steps|
  {
    if steps != [] {
      ApplyKeepsWf(w, steps[0]);
      StepKeepsSolvency(w, steps[0]);
      LossFreeRunsStaySolvent(Apply(w, steps[0]), steps[1..]);
    }
  }

  /** The share price at the end of a loss-free run without fee collection is at least
      the price at its start. */
  lemma {:induction false} PriceNeverFalls(w: World, steps: seq<Step>)
    requires Wf(w) && LossFreeRun(w, steps) && forall i :: 0 <= i < |steps| ==> !steps[i].FeesCollected?
    ensures Run(w, steps).supply >= 0
    ensures PriceAtLeast(TotalAssets(Run(w, steps)), Run(w, steps).supply, TotalAssets(w), w.supply)
    decreases |steps|
  {
    if steps == [] {
      PriceGrowsWithAssets(TotalAssets(w), TotalAssets(w), w.supply);
    } else {
      ApplyKeepsWf(w, steps[0]);
      StepKeepsPrice(w, steps[0]);
      var w1 := Apply(w, steps[0]);
      PriceNeverFalls(w1, steps[1..]);
      var w2 := Run(w, steps);
      PriceTransitive(TotalAssets(w2), w2.supply, TotalAssets(w1), w1.supply, TotalAssets(w), w.supply);
    }
  }

  // ------------------------------------------------------------------ conservation of tokens

  function Minted(w: World, step: Step): nat {
    if step.YieldAccrued? && step.strategy in w.deployed && w.deployed[step.strategy].Mock? then step.minted else 0
  }

  lemma OutsideMints(w: World, step: Step)
    requires Wf(w) && Outside(step)
    ensures Sum(Apply(w, step).token) == Sum(w.token) + Minted(w, step)
  {
    if step.YieldAccrued? { SumPut(w.token, step.strategy, Get(w.token, step.strategy) + step.minted); }
  }

  /** Every call moves tokens between accounts; only yield creates any. */
  lemma StepConservesTokens(w: World, step: Step)
    requires Wf(w)
    ensures Sum(Apply(w, step).token) == Sum(w.token) + Minted(w, step)
  {
    if HolderCall(step) {
      HolderCallKeepsWf(w, step);
    } else if FundsCall(step) {
      FundsCallEffect(w, step);
    } else if RecordCall(step) {
      RecordCallEffect(w, step);
    } else if Outside(step) {
      OutsideMints(w, step);
    } else if step.TokensSent? && Move(w.token, step.from, step.to, step.amount).Some? {
      MoveConserves(w.token, step.from, step.to, step.amount);
    }
  }

  function TotalMinted(w: World, steps: seq<Step>): nat
    requires Wf(w)
    decreases |steps|
  {
    if steps == [] then 0 else
    ApplyKeepsWf(w, steps[0]);
    Minted(w, steps[0]) + TotalMinted(Apply(w, steps[0]), steps[1..])
  }

  /** Conservation over any run: share balances add up to the supply, and the token
      ledger grows by exactly what yield minted. */
  lemma {:induction false} RunsConserve(w: World, steps: seq<Step>)
    requires Wf(w)
    ensures Run(w, steps).supply == Sum(Run(w, steps).shares)
    ensures Sum(Run(w, steps).token) == Sum(w.token) + TotalMinted(w, steps)
    decreases |steps|
  {
    if steps != [] {
      ApplyKeepsWf(w, steps[0]);
      StepConservesTokens(w, steps[0]);
      RunsConserve(Apply(w, steps[0]), steps[1..]);
    }
  }
}
