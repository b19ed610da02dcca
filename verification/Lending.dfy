/** The vault over strategies that lend through pools of their own: what its redemptions
    and its waterfall can rely on, and where they fail. */
module Lending {
  import opened Arith
  import opened Balances
  import opened Results
  import opened Shares
  import opened Positions
  import opened Strategies
  import opened Model
  import opened Accounting
  import opened Greedy
  import opened Blend
  import opened Runs
  import opened Ledgers
  import opened Exit

  // ------------------------------------------------------------------ which quotes hold

  /** A strategy of this vault whose funds are there: its own tokens for a self-contained
      one, the pool's free liquidity for a lending one. */
  ghost predicate Backed(w: World, s: Address) {
    && s in w.deployed && w.deployed[s].Vault() == w.self
    && match w.deployed[s]
       case Mock(_, balance, _) => balance <= Get(w.token, s)
       case Lending(p) => FreeLiquidity(p.pool) <= Get(w.token, p.pool.address)
  }

  /** A self-contained strategy quotes what it has; a lending one is good for its quote
      when its pool can be reached and the position is worth it. */
  predicate GoodForQuote(st: Strategy) {
    st.Lending? ==> st.position.pool.reachable && AvailableLiquidity(st.position) <= QueryPoolPosition(st.position)
  }

  /** A backed strategy can deliver what it quotes exactly when it is good for it. */
  lemma BackedIsHonestIff(w: World, s: Address)
    requires Backed(w, s)
    ensures HonestAt(w, s) <==> GoodForQuote(w.deployed[s]) || w.deployed[s].Available() <= 0
  {
    var st := w.deployed[s];
    if st.Lending? && st.Available() > 0 {
      WholeQuoteWithdrawableIff(st.position);
      if st.position.pool.reachable { QuoteBelowFree(st.position); }
    }
  }

  lemma QuoteBelowFree(p: Position)
    requires p.pool.reachable && AvailableLiquidity(p) > 0
    ensures AvailableLiquidity(p) <= FreeLiquidity(p.pool) && AvailableLiquidity(p) <= p.tracked
  {
  }

  ghost predicate AllGood(w: World, list: seq<Address>) {
    forall s :: s in list ==> Backed(w, s) && (w.deployed[s].Available() > 0 ==> GoodForQuote(w.deployed[s]))
  }

  lemma GoodIsHonest(w: World, list: seq<Address>)
    requires AllGood(w, list)
    ensures Honest(w, list)
  {
    forall s | s in list ensures s in w.deployed && HonestAt(w, s) {
      BackedIsHonestIff(w, s);
    }
  }

  /** The waterfall over lending strategies on separate pools, self-contained ones among
      them or not: while each is good for its quote it goes through and takes exactly the
      greedy amounts. */
  lemma WaterfallOverLending(w: World, list: seq<Address>, need: nat)
    requires Separate(w, list) && AllGood(w, list)
    ensures Waterfall(w, list, need).Ok?
    ensures RaisedExactly(w, list, need, Waterfall(w, list, need).value.0)
  {
    GoodIsHonest(w, list);
    HonestIsDeliverable(w, list, need);
    WaterfallExact(w, list, need);
  }

  /** So a redemption only depends on whether the quotes, liquidity limits and margins
      included, cover what idle funds do not. */
  lemma RedeemOverLendingIff(w: World, from: Address, shares: int)
    requires Wf(w) && Separate(w, w.strategies) && AllGood(w, w.strategies)
    ensures var assets := AssetsFor(shares, TotalAssets(w), w.supply);
            Redeem(w, from, shares).Ok? <==>
              && 0 < shares <= Get(w.shares, from) && assets > 0
              && assets <= Idle(w) + Capacity(Quotes(w, w.strategies))
  {
    GoodIsHonest(w, w.strategies);
    HonestRedeemSucceedsIff(w, from, shares);
  }

  // ------------------------------------------------------------------ the same in numbers

  /** A self-contained strategy quotes any part of its balance; a lending one two units less
      than is tracked and, of a pool that can be reached, two less than it has free. */
  predicate CanQuote(st: Strategy, x: nat) {
    x == 0 ||
    match st
    case Mock(_, balance, _) => x <= balance
    case Lending(p) => x + 2 <= p.tracked && (p.pool.reachable ==> HasFree(p.pool, x + 2))
  }

  lemma CanQuoteIff(st: Strategy, x: nat)
    ensures CanQuote(st, x) <==> x <= NonNegative(st.Available())
  {
    if st.Lending? { QuotedIff(st.position, x); }
  }

  function Total(xs: seq<nat>): nat {
    if xs == [] then 0 else xs[0] + Total(xs[1..])
  }

  /** The strategies can quote these amounts, and they are enough. */
  ghost predicate Raises(w: World, list: seq<Address>, xs: seq<nat>, need: int) {
    && |xs| == |list| && Total(xs) >= need
    && forall i :: 0 <= i < |list| ==> list[i] in w.deployed && CanQuote(w.deployed[list[i]], xs[i])
  }

  ghost predicate CanRaise(w: World, list: seq<Address>, need: int) {
    exists xs: seq<nat> :: Raises(w, list, xs, need)
  }

  /** The quotes cover what is needed exactly when it can be put together from amounts the
      strategies can quote. */
  lemma {:induction false} CapacityIff(w: World, list: seq<Address>, need: int)
    requires forall s :: s in list ==> s in w.deployed
    ensures need <= Capacity(Quotes(w, list)) <==> CanRaise(w, list, need)
  {
    if list == [] {
      if need <= 0 { assert Raises(w, list, [], need); }
    } else {
      var q := NonNegative(w.deployed[list[0]].Available());
      assert Quotes(w, list)[1..] == Quotes(w, list[1..]);
      CapacityIff(w, list[1..], need - q);
      if CanRaise(w, list[1..], need - q) {
        var rest: seq<nat> :| Raises(w, list[1..], rest, need - q);
        CanQuoteIff(w.deployed[list[0]], q);
        assert Raises(w, list, [q] + rest, need);
      }
      forall xs: seq<nat> | Raises(w, list, xs, need) ensures Raises(w, list[1..], xs[1..], need - q) {
        CanQuoteIff(w.deployed[list[0]], xs[0]);
      }
    }
  }

  /** So over partly lent-out pools, a redemption succeeds exactly when what idle funds do not
      cover can be put together from what the records and the free funds, each less two
      units, allow. */
  lemma RedeemFromRecordsIff(w: World, from: Address, shares: int)
    requires Wf(w) && Separate(w, w.strategies) && AllGood(w, w.strategies)
    ensures var assets := AssetsFor(shares, TotalAssets(w), w.supply);
            Redeem(w, from, shares).Ok? <==>
              && 0 < shares <= Get(w.shares, from) && assets > 0
              && CanRaise(w, w.strategies, assets - Idle(w))
  {
    RedeemOverLendingIff(w, from, shares);
    CapacityIff(w, w.strategies, AssetsFor(shares, TotalAssets(w), w.supply) - Idle(w));
  }

  /** A vault with one lending strategy: the shortfall and two units more must be within the
      record and within what the pool has free. */
  lemma RedeemFromOnePoolIff(w: World, from: Address, shares: int, s: Address)
    requires Wf(w) && w.strategies == [s] && Backed(w, s) && w.deployed[s].Lending?
    requires var p := w.deployed[s].position; p.pool.reachable && AvailableLiquidity(p) <= QueryPoolPosition(p)
    ensures var assets := AssetsFor(shares, TotalAssets(w), w.supply);
            var p, short := w.deployed[s].position, assets - Idle(w);
            Redeem(w, from, shares).Ok? <==>
              && 0 < shares <= Get(w.shares, from) && assets > 0
              && (short <= 0 || (short + 2 <= p.tracked && HasFree(p.pool, short + 2)))
  {
    assert w.supply >= 0 && Separate(w, w.strategies) && AllGood(w, w.strategies);
    hide Redeem, TotalAssets, AssetsFor, Wf, CanRaise;
    var short := AssetsFor(shares, TotalAssets(w), w.supply) - Idle(w);
    RedeemFromRecordsIff(w, from, shares);
    OnePart(w, s, short);
  }

  lemma OnePart(w: World, s: Address, need: int)
    requires s in w.deployed && w.deployed[s].Lending? && w.deployed[s].position.pool.reachable
    ensures CanRaise(w, [s], need) <==>
              need <= 0 || (need + 2 <= w.deployed[s].position.tracked
                            && HasFree(w.deployed[s].position.pool, need + 2))
  {
    var p := w.deployed[s].position;
    forall xs: seq<nat> | Raises(w, [s], xs, need) ensures need <= xs[0] && CanQuote(w.deployed[s], xs[0]) {
      assert xs == [xs[0]] && Total([xs[0]]) == xs[0] + Total([]);
      assert CanQuote(w.deployed[[s][0]], xs[0]);
    }
    if need <= 0 {
      assert Total([0]) == 0 + Total([]);
      assert Raises(w, [s], [0], need);
    } else if CanQuote(w.deployed[s], need) {
      assert Total([need]) == need + Total([]);
      assert Raises(w, [s], [need], need);
    }
  }

  /** Every redemption whose greedy account reaches a lending strategy with an unreachable
      pool, wherever it is listed, aborts -- however much the others could deliver. */
  lemma UnreachableBlocksRedemption(w: World, from: Address, shares: int, i: nat)
    requires Wf(w) && Separate(w, w.strategies) && i < |w.strategies|
    requires var st := w.deployed[w.strategies[i]]; st.Lending? && !st.position.pool.reachable
    requires 0 < shares <= Get(w.shares, from) && AssetsFor(shares, TotalAssets(w), w.supply) > 0
    requires Take(Quotes(w, w.strategies), Shortfall(w, AssetsFor(shares, TotalAssets(w), w.supply)), i) > 0
    ensures Redeem(w, from, shares) == Err(HostTrap)
  {
    var need := Shortfall(w, AssetsFor(shares, TotalAssets(w), w.supply));
    assert !Delivers(w, w.strategies[i], Take(Quotes(w, w.strategies), need, i));
    assert !Deliverable(w, w.strategies, need);
    RedeemSucceedsIff(w, from, shares);
  }

  // ------------------------------------------------------------------ debt over whole runs

  /** A lending strategy is at most `n` roundings behind. */
  ghost predicate InDebt(st: Strategy, n: nat) {
    st.Lending? ==> WithinDebt(st.position, n)
  }

  lemma DebtGrows(st: Strategy, n: nat)
    requires InDebt(st, n)
    ensures InDebt(st, n + 1)
  {
    if st.Lending? {
      var b := st.position.pool.collateral;
      MulLe(b + n, b + n + 1, st.position.pool.bRate);
    }
  }

  lemma DrawnDebt(st: Strategy, x: nat, n: nat)
    requires InDebt(st, n) && st.CanPay(st.Vault(), x)
    ensures InDebt(st.Drawn(x), n + 1)
  {
    if st.Lending? { WithdrawDebt(st.position.pool.collateral, n, st.position.pool.bRate, st.position.tracked, x); }
  }

  /** The strategy has paid out at most once. */
  ghost predicate PaidOnce(st: Strategy, st': Strategy) {
    st' == st || exists x: nat :: st.CanPay(st.Vault(), x) && st' == st.Drawn(x)
  }

  lemma PaidOnceDebt(st: Strategy, st': Strategy, n: nat)
    requires PaidOnce(st, st') && InDebt(st, n)
    ensures InDebt(st', n + 1)
  {
    if st' == st {
      DebtGrows(st, n);
    } else {
      var x: nat :| st.CanPay(st.Vault(), x) && st' == st.Drawn(x);
      DrawnDebt(st, x, n);
    }
  }

  lemma PullPaysOnce(w: World, strategy: Address, amount: int, s: Address)
    requires Apart(w.self, w.deployed) && amount > 0 && PullFrom(w, strategy, amount).Ok? && s in w.deployed
    ensures var w' := PullFrom(w, strategy, amount).value.0;
            && s in w'.deployed && PaidOnce(w.deployed[s], w'.deployed[s])
            && (s != strategy ==> w'.deployed[s] == w.deployed[s])
  {
    PullOutcome(w, strategy, amount);
  }

  lemma HopPaysOnce(w: World, strategy: Address, remaining: int, s: Address) returns (w1: World, left: int)
    requires Apart(w.self, w.deployed) && remaining > 0 && Hop(w, strategy, remaining).Ok? && s in w.deployed
    ensures Hop(w, strategy, remaining).value == (w1, left) && Apart(w1.self, w1.deployed)
    ensures s in w1.deployed && PaidOnce(w.deployed[s], w1.deployed[s])
    ensures s != strategy ==> w1.deployed[s] == w.deployed[s]
  {
    w1, left := Hop(w, strategy, remaining).value.0, Hop(w, strategy, remaining).value.1;
    var asked := HopPulls(w, strategy, remaining);
    if asked > 0 {
      PullPaysOnce(w, strategy, asked, s);
      PullKeepsLedgers(w, strategy, asked);
      ApartKept(w.self, w.deployed, w1.deployed);
    }
  }

  /** The waterfall calls each strategy at most once. */
  lemma {:induction false} WaterfallPaysOnce(w: World, pending: seq<Address>, remaining: int, s: Address)
    requires Apart(w.self, w.deployed) && NoDuplicates(pending) && Waterfall(w, pending, remaining).Ok?
    requires s in w.deployed
    ensures var w' := Waterfall(w, pending, remaining).value.0;
            && s in w'.deployed && PaidOnce(w.deployed[s], w'.deployed[s])
            && (s !in pending ==> w'.deployed[s] == w.deployed[s])
    decreases |pending|
  {
    if pending != [] && remaining > 0 {
      var w1, left := HopPaysOnce(w, pending[0], remaining, s);
      WaterfallPaysOnce(w1, pending[1..], left, s);
    }
  }

  lemma RedeemPaysOnce(w: World, from: Address, amount: int, s: Address)
    requires Wf(w) && Redeem(w, from, amount).Ok? && s in w.deployed
    ensures var w' := Redeem(w, from, amount).value.0; s in w'.deployed && PaidOnce(w.deployed[s], w'.deployed[s])
  {
    var assets := AssetsFor(amount, TotalAssets(w), w.supply);
    var w1, need := PayOutParts(w, from, amount, assets);
    WaterfallPaysOnce(w, w.strategies, need, s);
    BurnAndPayLeaves(w1, from, amount, assets);
  }

  lemma AllocateDebt(w: World, caller: Address, strategy: Address, amount: int, s: Address, n: nat)
    requires Wf(w) && Allocate(w, caller, strategy, amount).Ok? && s in w.deployed && InDebt(w.deployed[s], n)
    ensures var w' := Allocate(w, caller, strategy, amount).value.0; s in w'.deployed && InDebt(w'.deployed[s], n + 1)
  {
    AllocateFunds(w, caller, strategy, amount);
    DebtGrows(w.deployed[s], n);
    var sent, st', token' := FundSteps(w, strategy, amount);
    if s == strategy { BookedDebt(w.deployed[s], strategy, sent, w.self, amount, n); }
  }

  lemma BookedDebt(st: Strategy, self: Address, token: Table, caller: Address, amount: nat, n: nat)
    requires InDebt(st, n) && StrategyDeposit(st, self, token, caller, amount).Ok?
    ensures InDebt(StrategyDeposit(st, self, token, caller, amount).value.0, n + 1)
  {
    if st.Lending? { DepositDebt(st.position.pool.collateral, n, st.position.pool.bRate, st.position.tracked, amount); }
  }

  lemma EmergencyDebt(w: World, caller: Address, strategy: Address, s: Address, n: nat)
    requires Wf(w) && EmergencyWithdrawStrategy(w, caller, strategy).Ok? && s in w.deployed && InDebt(w.deployed[s], n)
    ensures var w' := EmergencyWithdrawStrategy(w, caller, strategy).value.0;
            s in w'.deployed && InDebt(w'.deployed[s], n + 1)
  {
    DrainOutcome(w, strategy);
    DebtGrows(w.deployed[s], n);
    var w' := DrainFrom(w, strategy).value.0;
    if s == strategy && w'.deployed[s].Lending? {
      MulLe(0, w'.deployed[s].position.pool.collateral + n + 1, w'.deployed[s].position.pool.bRate);
    }
  }

  /** Interest accrues: a pool's rate is not lowered by the step. */
  predicate RateKept(w: World, step: Step) {
    step.MarketMoved? && step.strategy in w.deployed && w.deployed[step.strategy].Lending? ==>
      step.market.bRate >= w.deployed[step.strategy].position.pool.bRate
  }

  lemma OutsideDebt(w: World, step: Step, s: Address, n: nat)
    requires w.supply >= 0 && Outside(step) && RateKept(w, step) && s in w.deployed && InDebt(w.deployed[s], n)
    ensures s in Apply(w, step).deployed && InDebt(Apply(w, step).deployed[s], n)
  {
    if step.MarketMoved? && s == step.strategy && w.deployed[s].Lending? {
      var p := w.deployed[s].position;
      MulLe(p.pool.bRate, step.market.bRate, p.pool.collateral + n);
    }
  }

  /** One step of a run costs every lending strategy at most one rounding. */
  lemma StepDebt(w: World, step: Step, s: Address, n: nat)
    requires Wf(w) && RateKept(w, step) && s in w.deployed && InDebt(w.deployed[s], n)
    ensures s in Apply(w, step).deployed && InDebt(Apply(w, step).deployed[s], n + 1)
  {
    DebtGrows(w.deployed[s], n);
    if step.RedeemBy? {
      if Redeem(w, step.from, step.amount).Ok? {
        RedeemPaysOnce(w, step.from, step.amount, s);
        PaidOnceDebt(w.deployed[s], Apply(w, step).deployed[s], n);
      }
    } else if FundsCall(step) {
      FundsCallDebt(w, step, s, n);
    } else if Outside(step) {
      OutsideDebt(w, step, s, n);
      DebtGrows(Apply(w, step).deployed[s], n);
    } else {
      OtherStepsKeepContracts(w, step);
    }
  }

  lemma FundsCallDebt(w: World, step: Step, s: Address, n: nat)
    requires Wf(w) && FundsCall(step) && s in w.deployed && InDebt(w.deployed[s], n)
    ensures s in Apply(w, step).deployed && InDebt(Apply(w, step).deployed[s], n + 1)
  {
    DebtGrows(w.deployed[s], n);
    match step
    case AllocateBy(caller, strategy, amount) =>
      if Allocate(w, caller, strategy, amount).Ok? { AllocateDebt(w, caller, strategy, amount, s, n); }
    case DeallocateBy(caller, strategy, amount) =>
      if Deallocate(w, caller, strategy, amount).Ok? {
        PullPaysOnce(w, strategy, amount, s);
        PaidOnceDebt(w.deployed[s], Apply(w, step).deployed[s], n);
      }
    case EmergencyBy(caller, strategy) =>
      if EmergencyWithdrawStrategy(w, caller, strategy).Ok? { EmergencyDebt(w, caller, strategy, s, n); }
  }

  lemma OtherStepsKeepContracts(w: World, step: Step)
    requires Wf(w) && !step.RedeemBy? && !FundsCall(step) && !Outside(step)
    ensures Apply(w, step).deployed == w.deployed
  {
    if step.DepositBy? {
      if Deposit(w, step.from, step.assets).Ok? { DepositKeepsContracts(w, step.from, step.assets); }
    } else if RecordCall(step) {
      RecordCallKeepsContracts(w, step);
    }
  }

  lemma RecordCallKeepsContracts(w: World, step: Step)
    requires w.supply >= 0 && RecordCall(step)
    ensures Apply(w, step).deployed == w.deployed
  {
  }

  lemma DepositKeepsContracts(w: World, from: Address, assets: int)
    requires Deposit(w, from, assets).Ok?
    ensures Deposit(w, from, assets).value.0.deployed == w.deployed
  {
  }

  ghost predicate RatesKept(w: World, steps: seq<Step>)
    requires Wf(w)
    decreases |steps|
  {
    steps == [] ||
    (RateKept(w, steps[0]) && (ApplyKeepsWf(w, steps[0]); RatesKept(Apply(w, steps[0]), steps[1..])))
  }

  /** A step is charged to a strategy if it is a call that changed the strategy's state:
      what other contracts do, and what interest does, rounds nothing. */
  function Charge(w: World, step: Step, s: Address): nat
    requires w.supply >= 0
  {
    var after := Apply(w, step).deployed;
    if Outside(step) || (s in w.deployed && s in after && after[s] == w.deployed[s]) then 0 else 1
  }

  function TotalCharge(w: World, steps: seq<Step>, s: Address): nat
    requires Wf(w)
    decreases |steps|
  {
    if steps == [] then 0 else
    ApplyKeepsWf(w, steps[0]);
    Charge(w, steps[0], s) + TotalCharge(Apply(w, steps[0]), steps[1..], s)
  }

  lemma ChargedDebt(w: World, step: Step, s: Address, n: nat)
    requires Wf(w) && RateKept(w, step) && s in w.deployed && InDebt(w.deployed[s], n)
    ensures s in Apply(w, step).deployed && InDebt(Apply(w, step).deployed[s], n + Charge(w, step, s))
  {
    hide InDebt, RateKept, Apply;
    if Outside(step) { OutsideDebt(w, step, s, n); } else { StepDebt(w, step, s, n); }
  }

  /** Over any run of the vault at rates that never fall, a lending strategy falls behind
      by at most one rounding for every call that changed it. */
  lemma {:induction false} DebtOverRuns(w: World, steps: seq<Step>, s: Address, n: nat, m: nat)
    requires Wf(w) && RatesKept(w, steps) && s in w.deployed && InDebt(w.deployed[s], n)
    requires m == n + TotalCharge(w, steps, s)
    ensures s in Run(w, steps).deployed && InDebt(Run(w, steps).deployed[s], m)
    decreases |steps|
  {
    hide Charge, InDebt, RateKept, Apply;
    if steps != [] {
      ApplyKeepsWf(w, steps[0]);
      ChargedDebt(w, steps[0], s, n);
      DebtOverRuns(Apply(w, steps[0]), steps[1..], s, n + Charge(w, steps[0], s), m);
    }
  }

  /** So its quote stays within its position for as long as the margin covers that many
      roundings. */
  lemma QuoteCoveredAfterRun(w: World, steps: seq<Step>, s: Address, n: nat, m: nat)
    requires Wf(w) && RatesKept(w, steps) && s in w.deployed && InDebt(w.deployed[s], n)
    requires m == n + TotalCharge(w, steps, s)
    ensures s in Run(w, steps).deployed
    ensures var st := Run(w, steps).deployed[s];
            st.Lending? && m * st.position.pool.bRate <= AVAILABLE_LIQUIDITY_ROUNDING_MARGIN * BLEND_RATE_SCALAR ==>
              AvailableLiquidity(st.position) <= QueryPoolPosition(st.position)
  {
    DebtOverRuns(w, steps, s, n, m);
    var st := Run(w, steps).deployed[s];
    if st.Lending? && m * st.position.pool.bRate <= AVAILABLE_LIQUIDITY_ROUNDING_MARGIN * BLEND_RATE_SCALAR {
      MarginCovers(st.position, m);
    }
  }

  // ------------------------------------------------------------------ exit over lending strategies

  /** The listed strategies' pools can be reached and have everything free, in tokens, that
      the strategies have recorded, and the positions are worth what is quoted. */
  ghost predicate PoolsLiquid(w: World) {
    forall s :: s in w.strategies ==> s in w.deployed && PoolLiquid(w, w.deployed[s])
  }

  ghost predicate PoolLiquid(w: World, st: Strategy) {
    st.Lending? ==>
      var pool := st.position.pool;
      && pool.reachable
      && st.position.tracked <= FreeLiquidity(pool) <= Get(w.token, pool.address)
      && AvailableLiquidity(st.position) <= QueryPoolPosition(st.position)
  }

  lemma LiquidPoolsQuote(w: World, s: Address)
    requires Agree(w) && s in w.deployed && w.deployed[s].Vault() == w.self && PoolLiquid(w, w.deployed[s])
    ensures HonestAt(w, s)
    ensures w.deployed[s].Available() >= Get(w.tracked, s) - AVAILABLE_LIQUIDITY_ROUNDING_MARGIN
  {
    assert AgreeAt(w, s);
    BackedIsHonestIff(w, s);
  }

  /** Over lending strategies with liquid pools, after any matched run whatsoever, every
      redemption goes through for its quote if that leaves two units per strategy. */
  lemma ExitOverLending(w: World, steps: seq<Step>)
    requires Wf(w) && Agree(w) && Registered(w) && MatchedRun(w, steps)
    requires var end := Run(w, steps); Separate(end, end.strategies) && PoolsLiquid(end)
    ensures Wf(Run(w, steps)) && EveryoneCanLeave(Run(w, steps), AVAILABLE_LIQUIDITY_ROUNDING_MARGIN)
  {
    RunKeepsWf(w, steps);
    LedgersAgreeAlways(w, steps);
    LiquidPoolsMeanExit(Run(w, steps));
  }

  lemma LiquidPoolsMeanExit(w: World)
    requires Wf(w) && Agree(w) && Registered(w) && Separate(w, w.strategies) && PoolsLiquid(w)
    ensures EveryoneCanLeave(w, AVAILABLE_LIQUIDITY_ROUNDING_MARGIN)
  {
    forall s | s in w.strategies
      ensures HonestAt(w, s) && w.deployed[s].Available() >= Get(w.tracked, s) - AVAILABLE_LIQUIDITY_ROUNDING_MARGIN
    {
      LiquidPoolsQuote(w, s);
    }
    LiquidMeansExit(w, AVAILABLE_LIQUIDITY_ROUNDING_MARGIN);
  }
}
