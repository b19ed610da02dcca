/** The guarantee the vault is built around: shares can always be turned back into
    assets, in one call, at the quoted price. */
module Exit {
  import opened Arith
  import opened Balances
  import opened Results
  import opened Shares
  import opened Strategies
  import opened Model
  import opened Accounting
  import opened Greedy
  import opened Runs
  import opened Ledgers

  /** Quotes within `margin` of what the vault tracks add up to within that much per
      strategy of the tracked sum. */
  lemma {:induction false} CapacityCoversTracked(w: World, list: seq<Address>, margin: nat)
    requires forall s :: s in list ==> s in w.deployed && w.deployed[s].Available() >= Get(w.tracked, s) - margin
    ensures Capacity(Quotes(w, list)) >= TrackedSum(list, w.tracked) - margin * |list|
  {
    if list != [] {
      CapacityCoversTracked(w, list[1..], margin);
      assert Quotes(w, list)[1..] == Quotes(w, list[1..]);
      OneFewer(margin, |list|);
    }
  }

  lemma OneFewer(margin: nat, n: nat)
    requires n > 0
    ensures margin * n == margin * (n - 1) + margin
  {
  }

  /** The strategies the vault lists are separate, honest, and quote what is tracked up to
      `margin`. */
  ghost predicate Liquid(w: World, margin: nat) {
    && Separate(w, w.strategies) && Honest(w, w.strategies)
    && forall s :: s in w.strategies ==> w.deployed[s].Available() >= Get(w.tracked, s) - margin
  }

  /** A redemption goes through whenever its quote leaves the margins of the listed
      strategies, and the money that has been bridged away, untouched. */
  lemma ExitWithinMargin(w: World, holder: Address, shares: int, margin: nat)
    requires Wf(w) && Liquid(w, margin)
    requires CanAsk(w, holder, shares, margin)
    ensures Redeem(w, holder, shares).Ok?
    ensures Redeem(w, holder, shares).value.1 == AssetsFor(shares, TotalAssets(w), w.supply)
  {
    CapacityCoversTracked(w, w.strategies, margin);
    HonestRedeemSucceedsIff(w, holder, shares);
    RedeemEffect(w, holder, shares);
  }

  /** Every redemption a holder can ask for goes through for its quote, as long as that
      leaves the margins and the bridged money untouched. */
  ghost predicate EveryoneCanLeave(w: World, margin: nat)
    requires w.supply >= 0
  {
    forall holder, shares :: CanAsk(w, holder, shares, margin) ==>
      Redeem(w, holder, shares).Ok? && Redeem(w, holder, shares).value.1 == AssetsFor(shares, TotalAssets(w), w.supply)
  }

  ghost predicate CanAsk(w: World, holder: Address, shares: int, margin: nat)
    requires w.supply >= 0
  {
    && 0 < shares <= Get(w.shares, holder)
    && 0 < AssetsFor(shares, TotalAssets(w), w.supply)
       <= TotalAssets(w) - EffectiveBridged(w) - margin * |w.strategies|
  }

  lemma LiquidMeansExit(w: World, margin: nat)
    requires Wf(w) && Liquid(w, margin)
    ensures EveryoneCanLeave(w, margin)
  {
    forall holder, shares | CanAsk(w, holder, shares, margin)
      ensures Redeem(w, holder, shares).Ok?
              && Redeem(w, holder, shares).value.1 == AssetsFor(shares, TotalAssets(w), w.supply)
    {
      ExitWithinMargin(w, holder, shares, margin);
    }
  }

  /** Any holder can redeem any positive part of their shares, however the funds are
      split between idle and strategies, for exactly the quoted amount, which is at
      least one asset per share. */
  lemma GuaranteedExit(w: World, holder: Address, shares: int)
    requires Wf(w) && Solvent(w) && Liquid(w, 0) && EffectiveBridged(w) == 0
    requires 0 < shares <= Get(w.shares, holder)
    ensures Redeem(w, holder, shares).Ok?
    ensures Redeem(w, holder, shares).value.1 == AssetsFor(shares, TotalAssets(w), w.supply) >= shares
  {
    GetAtMostSum(w.shares, holder);
    RedeemStep(shares, TotalAssets(w), w.supply);
    ExitWithinMargin(w, holder, shares, 0);
  }

  // ------------------------------------------------------------------ self-contained strategies

  /** Every deployed strategy holds its deposits itself. */
  ghost predicate SelfContained(w: World) {
    forall s :: s in w.deployed ==> w.deployed[s].Mock?
  }

  /** Such strategies, when the ledgers agree, can always deliver everything they owe. */
  lemma SelfContainedIsLiquid(w: World)
    requires Wf(w) && SelfContained(w) && Agree(w) && Registered(w)
    ensures Liquid(w, 0)
    ensures Exact(w) ==> forall s :: s in w.strategies ==> w.deployed[s].Available() == Get(w.tracked, s)
  {
    forall s | s in w.strategies ensures s in w.deployed && w.deployed[s].Mock? && AgreeAt(w, s) && HonestAt(w, s) {
    }
  }

  /** The whole-run form: whatever has happened since the vault was initialised, short
      of a written-off loss, every holder can leave. */
  lemma EveryHolderCanAlwaysExit(w: World, steps: seq<Step>, holder: Address, shares: int)
    requires Wf(w) && Solvent(w) && SelfContained(w) && Agree(w) && Registered(w)
    requires LossFreeRun(w, steps) && MatchedRun(w, steps)
    requires EffectiveBridged(Run(w, steps)) == 0
    requires 0 < shares <= Get(Run(w, steps).shares, holder)
    ensures Run(w, steps).supply >= 0
    ensures var end := Run(w, steps);
            Redeem(end, holder, shares).Ok?
            && Redeem(end, holder, shares).value.1 == AssetsFor(shares, TotalAssets(end), end.supply) >= shares
  {
    LossFreeRunsStaySolvent(w, steps);
    LedgersAgreeAlways(w, steps);
    var end := Run(w, steps);
    StillSelfContained(w, end);
    SelfContainedIsLiquid(end);
    GuaranteedExit(end, holder, shares);
  }

  lemma StillSelfContained(w: World, w': World)
    requires SelfContained(w) && SameContracts(w.deployed, w'.deployed)
    ensures SelfContained(w')
  {
    forall s | s in w'.deployed ensures w'.deployed[s].Mock? { assert SameContract(w.deployed[s], w'.deployed[s]); }
  }

  /** The same from the very beginning: a vault initialised on a ledger whose strategies
      hold what they say they hold. */
  lemma EveryHolderCanExitSinceInitialisation(
    now: nat, token: Table, deployed: map<Address, Strategy>, self: Address, admin: Address, keeper: Address,
    guardian: Address, feeRecipient: Address, feeBps: nat, bufferBps: nat,
    start: World, steps: seq<Step>, holder: Address, shares: int)
    requires self !in deployed
    requires forall s :: s in deployed ==> deployed[s].Mock? && 0 <= deployed[s].Ledger() <= Get(token, s)
    requires Initialize(now, token, deployed, self, admin, keeper, guardian, feeRecipient, feeBps, bufferBps)
             == Ok(start)
    requires Wf(start) && LossFreeRun(start, steps) && MatchedRun(start, steps)
    requires EffectiveBridged(Run(start, steps)) == 0
    requires 0 < shares <= Get(Run(start, steps).shares, holder)
    ensures Run(start, steps).supply >= 0
    ensures var end := Run(start, steps);
            Redeem(end, holder, shares).Ok?
            && Redeem(end, holder, shares).value.1 == AssetsFor(shares, TotalAssets(end), end.supply) >= shares
  {
    InitialState(now, token, deployed, self, admin, keeper, guardian, feeRecipient, feeBps, bufferBps);
    FreshLedgersAgree(start);
    EveryHolderCanAlwaysExit(start, steps, holder, shares);
  }

  lemma FreshLedgersAgree(w: World)
    requires w.strategies == [] && w.tracked == map[]
    requires forall s :: s in w.deployed ==> w.deployed[s].Mock? && 0 <= w.deployed[s].Ledger() <= Get(w.token, s)
    ensures SelfContained(w) && Agree(w) && Registered(w)
  {
    forall s | s in w.deployed ensures AgreeAt(w, s) {
    }
  }

  // ------------------------------------------------------------------ without solvency

  /** When strategies hold just what is tracked, a redemption is covered exactly when the
      price per share leaves it within assets -- whatever the supply. */
  lemma HolderExitIff(w: World, holder: Address, shares: int)
    requires Wf(w) && SelfContained(w) && Exact(w) && Agree(w) && Registered(w) && EffectiveBridged(w) == 0
    requires 0 < shares <= Get(w.shares, holder)
    ensures var a, s := TotalAssets(w), w.supply;
            Redeem(w, holder, shares).Ok? <==>
              && AssetsFor(shares, a, s) > 0
              && shares * (a + VIRTUAL_SHARES_OFFSET) < (a + 1) * (s + VIRTUAL_SHARES_OFFSET)
    ensures AssetsFor(shares, TotalAssets(w), w.supply) > 0 && Redeem(w, holder, shares).Err? ==>
              Redeem(w, holder, shares) == Err(InsufficientAssets)
  {
    SelfContainedIsLiquid(w);
    CapacityIsTracked(w, w.strategies);
    HonestRedeemSucceedsIff(w, holder, shares);
    RedeemSucceedsIff(w, holder, shares);
    HonestIsDeliverable(w, w.strategies, Shortfall(w, AssetsFor(shares, TotalAssets(w), w.supply)));
    QuoteWithinAssetsIff(shares, TotalAssets(w), w.supply);
  }

  lemma QuoteWithinAssetsIff(shares: nat, a: nat, s: nat)
    ensures AssetsFor(shares, a, s) <= a
            <==> shares * (a + VIRTUAL_SHARES_OFFSET) < (a + 1) * (s + VIRTUAL_SHARES_OFFSET)
  {
    var x, y := a + VIRTUAL_SHARES_OFFSET, s + VIRTUAL_SHARES_OFFSET;
    assert (a + 1) * y == a * y + y;
    MulLe(0, shares, x);
    if shares * x < (a + 1) * y {
      FloorAtMost(shares * x, y, a);
    } else {
      FloorAtLeast(shares * x, y, a + 1);
    }
  }

  /** In particular a sole holder can redeem the whole supply exactly when the shortfall
      of assets behind shares is small enough for the virtual offset to hide. */
  lemma SoleHolderExitIff(w: World, holder: Address)
    requires Wf(w) && SelfContained(w) && Exact(w) && Agree(w) && Registered(w) && EffectiveBridged(w) == 0
    requires Get(w.shares, holder) == w.supply > 0
    ensures var a, s := TotalAssets(w), w.supply;
            Redeem(w, holder, s).Ok? <==>
              AssetsFor(s, a, s) > 0 && VIRTUAL_SHARES_OFFSET * (s - a - 1) < s
  {
    HolderExitIff(w, holder, w.supply);
    WholeSupply(TotalAssets(w), w.supply);
  }

  lemma WholeSupply(a: nat, s: nat)
    ensures s * (a + VIRTUAL_SHARES_OFFSET) < (a + 1) * (s + VIRTUAL_SHARES_OFFSET)
            <==> VIRTUAL_SHARES_OFFSET * (s - a - 1) < s
  {
    assert s * (a + VIRTUAL_SHARES_OFFSET) == s * a + s * VIRTUAL_SHARES_OFFSET;
    assert (a + 1) * (s + VIRTUAL_SHARES_OFFSET) == s * a + s + (a + 1) * VIRTUAL_SHARES_OFFSET;
  }

  lemma {:induction false} CapacityIsTracked(w: World, list: seq<Address>)
    requires forall s :: s in list ==> s in w.deployed && w.deployed[s].Available() == Get(w.tracked, s)
    ensures Capacity(Quotes(w, list)) == TrackedSum(list, w.tracked)
  {
    if list != [] {
      CapacityIsTracked(w, list[1..]);
      assert Quotes(w, list)[1..] == Quotes(w, list[1..]);
    }
  }

  // ------------------------------------------------------------------ all claims at once

  /** What each holder would be quoted for their whole balance. */
  ghost function Claims(t: Table, a: nat, s: nat): Table {
    map holder | holder in t :: Quoted(t[holder], a, s)
  }

  ghost function Quoted(shares: nat, a: nat, s: nat): nat {
    AssetsForBounds(shares, a, s);
    AssetsFor(shares, a, s)
  }

  lemma QuotedBound(shares: nat, a: nat, s: nat)
    ensures Quoted(shares, a, s) * (s + VIRTUAL_SHARES_OFFSET) <= shares * (a + VIRTUAL_SHARES_OFFSET)
  {
  }

  lemma ClaimsWithout(t: Table, h: Address, a: nat, s: nat)
    requires h in t
    ensures Claims(t, a, s) - {h} == Claims(t - {h}, a, s)
    ensures Claims(t, a, s)[h] == Quoted(t[h], a, s)
  {
  }

  lemma {:induction false} ClaimsBound(t: Table, a: nat, s: nat, x: nat, y: nat)
    requires x == a + VIRTUAL_SHARES_OFFSET && y == s + VIRTUAL_SHARES_OFFSET
    ensures Sum(Claims(t, a, s)) * y <= Sum(t) * x
    decreases |t|
  {
    if t == map[] {
      assert Claims(t, a, s) == map[];
    } else {
      var h :| h in t;
      var claims := Claims(t, a, s);
      SumSplit(t, h);
      SumSplit(claims, h);
      ClaimsWithout(t, h, a, s);
      ClaimsBound(t - {h}, a, s, x, y);
      QuotedBound(t[h], a, s);
      AddProducts(Sum(claims), claims[h], Sum(claims - {h}), y, Sum(t), t[h], Sum(t - {h}), x);
    }
  }

  lemma AddProducts(pq: nat, p: nat, q: nat, y: nat, uv: nat, u: nat, v: nat, x: nat)
    requires pq == p + q && uv == u + v
    requires p * y <= u * x && q * y <= v * x
    ensures pq * y <= uv * x
  {
    assert pq * y == p * y + q * y && uv * x == u * x + v * x;
  }

  /** All holders' quotes together are covered by the vault's assets. */
  lemma ClaimsAreCovered(w: World)
    requires Wf(w) && Solvent(w)
    ensures Sum(Claims(w.shares, TotalAssets(w), w.supply)) <= TotalAssets(w)
  {
    var a, s := TotalAssets(w), w.supply;
    var total := Sum(Claims(w.shares, a, s));
    ClaimsBound(w.shares, a, s, a + VIRTUAL_SHARES_OFFSET, s + VIRTUAL_SHARES_OFFSET);
    RedeemStep(s, a, s);
    AssetsForBounds(s, a, s);
    MulLe(0, s, a + VIRTUAL_SHARES_OFFSET);
    FloorAtLeast(s * (a + VIRTUAL_SHARES_OFFSET), s + VIRTUAL_SHARES_OFFSET, total);
  }
}
