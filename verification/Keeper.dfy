/** The keeper's decision of how much idle money to put to work, against the buffer the
    vault enforces. */
module Keeper {
  import opened Arith
  import opened Balances
  import opened Shares
  import opened Model
  import opened Accounting
  import opened Runs
  import opened Calls

  datatype TickResult =
    | IdleBelowBuffer(idle: int, minIdle: int)
    | BelowThreshold(excess: int, threshold: int)
    | Unhealthy(surplus: int)
    | Submit(amount: int)

  function Tick(idle: int, totalAssets: int, idleBufferBps: nat, minAllocateUnits: nat, healthy: bool): TickResult {
    var minIdle := TruncDiv(totalAssets * idleBufferBps, MAX_BPS);
    if idle <= minIdle then IdleBelowBuffer(idle, minIdle) else
    var excess := idle - minIdle;
    if excess < minAllocateUnits then BelowThreshold(excess, minAllocateUnits) else
    if !healthy then Unhealthy(excess) else
    Submit(excess)
  }

  /** What the keeper decides, in products: nothing while idle funds do not exceed the buffer,
      which is rounded down; otherwise the whole excess if it is large enough and the strategy
      reports itself healthy. */
  lemma TickIff(idle: nat, totalAssets: nat, bps: nat, minUnits: nat, healthy: bool, x: int)
    ensures var r := Tick(idle, totalAssets, bps, minUnits, healthy);
            var above := x > 0 && (idle - x) * MAX_BPS <= totalAssets * bps < (idle - x + 1) * MAX_BPS;
            && (r.IdleBelowBuffer? <==> idle * MAX_BPS <= totalAssets * bps)
            && (r == BelowThreshold(x, minUnits) <==> above && x < minUnits)
            && (r == Unhealthy(x) <==> above && x >= minUnits && !healthy)
            && (r == Submit(x) <==> above && x >= minUnits && healthy)
  {
    MulLe(0, totalAssets, bps);
    FloorBounds(totalAssets * bps, MAX_BPS);
  }

  /** The strategy is one the vault would allocate to, and accepts deposits. */
  ghost predicate Open(w: World, strategy: Address) {
    strategy in w.strategies && strategy in w.deployed && TakesDeposits(w.deployed[strategy], w.self)
  }

  /** The vault accepts exactly the positive amounts up to what idle funds exceed the
      buffer by. */
  lemma AllocateAcceptsIff(w: World, strategy: Address, amount: int)
    requires Open(w, strategy)
    ensures Allocate(w, w.settings.keeper, strategy, amount).Ok? <==> 0 < amount <= Idle(w) - MinIdle(w)
  {
    AllocateIff(w, w.settings.keeper, strategy, amount);
    BufferIff(w, amount);
  }

  /** The keeper asks the strategy for its health and submits exactly when the vault would
      accept some amount that is worth submitting. */
  lemma SubmitsIffAccepted(w: World, strategy: Address, minUnits: nat)
    requires strategy in w.strategies && strategy in w.deployed && w.deployed[strategy].Vault() == w.self
    requires w.deployed[strategy].Lending? ==> !w.deployed[strategy].position.paused
    ensures Tick(Idle(w), TotalAssets(w), w.settings.bufferBps, minUnits, w.deployed[strategy].Healthy()).Submit?
            <==> exists amount: int :: amount >= minUnits && Allocate(w, w.settings.keeper, strategy, amount).Ok?
  {
    hide Allocate, TotalAssets;
    var excess := Idle(w) - MinIdle(w);
    AllocateIff(w, w.settings.keeper, strategy, excess);
    BufferIff(w, excess);
    forall amount: int | amount >= minUnits && Allocate(w, w.settings.keeper, strategy, amount).Ok?
      ensures TakesDeposits(w.deployed[strategy], w.self) && 0 < amount <= excess
    {
      AllocateIff(w, w.settings.keeper, strategy, amount);
      BufferIff(w, amount);
    }
  }

  /** With the same buffer rate as the vault, the keeper submits the largest amount the
      vault accepts; afterwards total assets are as before, idle funds are exactly the
      buffer, and the next tick has nothing to do. */
  lemma SubmittedAllocationFits(w: World, strategy: Address, minUnits: nat, nextHealthy: bool)
    requires Wf(w) && Open(w, strategy)
    requires Tick(Idle(w), TotalAssets(w), w.settings.bufferBps, minUnits, true).Submit?
    ensures var excess := Tick(Idle(w), TotalAssets(w), w.settings.bufferBps, minUnits, true).amount;
            && Allocate(w, w.settings.keeper, strategy, excess).Ok?
            && Allocate(w, w.settings.keeper, strategy, excess + 1).Err?
            && (var w' := Allocate(w, w.settings.keeper, strategy, excess).value.0;
                && TotalAssets(w') == TotalAssets(w)
                && Idle(w') == MinIdle(w) == MinIdle(w')
                && Tick(Idle(w'), TotalAssets(w'), w'.settings.bufferBps, minUnits, nextHealthy)
                   == IdleBelowBuffer(Idle(w'), Idle(w')))
  {
    var excess := Tick(Idle(w), TotalAssets(w), w.settings.bufferBps, minUnits, true).amount;
    AllocateAcceptsIff(w, strategy, excess);
    AllocateAcceptsIff(w, strategy, excess + 1);
    AllocateEffect(w, w.settings.keeper, strategy, excess);
  }

  /** If the rate the keeper mirrors is not the vault's, a submitted allocation is
      accepted exactly when the vault's buffer is no larger than the keeper's. */
  lemma MirroredRateMatters(w: World, strategy: Address, mirroredBps: nat, minUnits: nat)
    requires Open(w, strategy)
    requires Tick(Idle(w), TotalAssets(w), mirroredBps, minUnits, true).Submit?
    ensures var excess := Tick(Idle(w), TotalAssets(w), mirroredBps, minUnits, true).amount;
            Allocate(w, w.settings.keeper, strategy, excess).Ok?
            <==> MinIdle(w) <= TruncDiv(TotalAssets(w) * mirroredBps, MAX_BPS)
  {
    AllocateAcceptsIff(w, strategy, Tick(Idle(w), TotalAssets(w), mirroredBps, minUnits, true).amount);
  }

  // ------------------------------------------------------------------ deposits in between

  ghost predicate OnlyDeposits(w: World, steps: seq<Step>) {
    forall i :: 0 <= i < |steps| ==> steps[i].DepositBy? && steps[i].from != w.self
  }

  /** Fresh money only widens the surplus: the buffer grows by at most what came in. */
  lemma BufferGrowsSlower(total: nat, added: nat, bps: nat)
    requires bps <= MAX_BPS
    ensures TruncDiv((total + added) * bps, MAX_BPS) <= TruncDiv(total * bps, MAX_BPS) + added
  {
  }

  lemma DepositWidensSurplus(w: World, from: Address, assets: int)
    requires Wf(w) && from != w.self
    ensures var w' := After(w, Deposit(w, from, assets));
            && w'.self == w.self && w'.settings == w.settings
            && w'.strategies == w.strategies && w'.deployed == w.deployed
            && Idle(w') - MinIdle(w') >= Idle(w) - MinIdle(w)
  {
    if Deposit(w, from, assets).Ok? {
      DepositEffect(w, from, assets);
      IssueAddsIdle(w, from, assets, Deposit(w, from, assets).value.1);
      BufferGrowsSlower(TotalAssets(w), assets, w.settings.bufferBps);
    }
  }

  lemma IssueAddsIdle(w: World, from: Address, assets: nat, minted: nat)
    requires from != w.self && Issue(w, from, assets, minted).Ok?
    ensures var w' := Issue(w, from, assets, minted).value.0;
            && Idle(w') == Idle(w) + assets
            && w' == w.(token := w'.token, shares := w'.shares, supply := w'.supply)
  {
  }

  lemma {:induction false} DepositsWidenSurplus(w: World, steps: seq<Step>)
    requires Wf(w) && OnlyDeposits(w, steps)
    ensures var w' := Run(w, steps);
            && w'.self == w.self && w'.settings == w.settings
            && w'.strategies == w.strategies && w'.deployed == w.deployed
            && Idle(w') - MinIdle(w') >= Idle(w) - MinIdle(w)
    decreases |steps|
  {
    if steps != [] {
      assert steps[0].DepositBy?;
      DepositWidensSurplus(w, steps[0].from, steps[0].assets);
      ApplyKeepsWf(w, steps[0]);
      DepositsWidenSurplus(Apply(w, steps[0]), steps[1..]);
    }
  }

  /** What the keeper computed from one state is still accepted after any deposits that
      land before its transaction does. */
  lemma SubmittedAllocationSurvivesDeposits(w: World, strategy: Address, minUnits: nat, steps: seq<Step>)
    requires Wf(w) && Open(w, strategy) && OnlyDeposits(w, steps)
    requires Tick(Idle(w), TotalAssets(w), w.settings.bufferBps, minUnits, true).Submit?
    ensures var later := Run(w, steps);
            Allocate(later, later.settings.keeper, strategy,
                     Tick(Idle(w), TotalAssets(w), w.settings.bufferBps, minUnits, true).amount).Ok?
  {
    var later := Run(w, steps);
    DepositsWidenSurplus(w, steps);
    AllocateAcceptsIff(later, strategy, Tick(Idle(w), TotalAssets(w), w.settings.bufferBps, minUnits, true).amount);
  }
}
