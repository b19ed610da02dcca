/** The pricing results as holders meet them: sequences of actual calls. */
module Holders {
  import opened Arith
  import opened Balances
  import opened Results
  import opened Shares
  import opened Fees
  import opened Model
  import opened Accounting
  import opened Runs

  /** A deposit by a user, in terms of total assets and supply. */
  lemma DepositNumbers(w: World, from: Address, assets: int, w': World, minted: int)
    requires Wf(w) && from != w.self && Deposit(w, from, assets) == Ok((w', minted))
    ensures Wf(w') && assets > 0 && minted > 0 && w'.self == w.self
    ensures minted == SharesFor(assets, TotalAssets(w), w.supply)
    ensures w'.supply == w.supply + minted && TotalAssets(w') == TotalAssets(w) + assets
  {
    DepositEffect(w, from, assets);
  }

  lemma RedeemNumbers(w: World, from: Address, shares: int, w': World, paid: int)
    requires Wf(w) && Redeem(w, from, shares) == Ok((w', paid))
    ensures shares > 0 && paid == AssetsFor(shares, TotalAssets(w), w.supply)
  {
  }

  /** Depositing and redeeming at once never gains, loses less than one unit plus the
      price of a share, and is free exactly when the price divides the deposit. */
  lemma RoundTripInVault(w: World, from: Address, assets: int, w1: World, minted: int, w2: World, paid: int)
    requires Wf(w) && from != w.self
    requires Deposit(w, from, assets) == Ok((w1, minted))
    requires w1.supply >= 0 && Redeem(w1, from, minted) == Ok((w2, paid))
    ensures RoundTripCost(assets, paid, minted, TotalAssets(w), w.supply)
  {
    hide Deposit, Redeem, SharesFor, AssetsFor, RoundTripCost;
    DepositNumbers(w, from, assets, w1, minted);
    RedeemNumbers(w1, from, minted, w2, paid);
    RoundTripCosts(assets, TotalAssets(w), w.supply);
  }

  lemma RoundTripCosts(assets: nat, a: nat, s: nat)
    requires SharesFor(assets, a, s) > 0
    ensures var m := SharesFor(assets, a, s);
            RoundTripCost(assets, AssetsFor(m, a + assets, s + m), m, a, s)
  {
    RoundTrip(assets, a, s);
  }

  ghost predicate RoundTripCost(assets: int, paid: int, minted: int, a: nat, s: int) {
    && paid <= assets
    && (assets - paid - 1) * (s + minted + VIRTUAL_SHARES_OFFSET) < a + VIRTUAL_SHARES_OFFSET
    && (paid == assets <==> (assets * (s + VIRTUAL_SHARES_OFFSET)) % (a + VIRTUAL_SHARES_OFFSET) == 0)
  }

  /** A deposit to be made. */
  datatype Purchase = Purchase(from: Address, assets: nat)

  function Amounts(ps: seq<Purchase>): seq<nat> {
    if ps == [] then [] else [ps[0].assets] + Amounts(ps[1..])
  }

  /** The deposits are made one after the other, all accepted, and lead from `w` to `w'`. */
  ghost predicate Bought(w: World, ps: seq<Purchase>, w': World)
    decreases |ps|
  {
    if ps == [] then w' == w else
    ps[0].from != w.self && Deposit(w, ps[0].from, ps[0].assets).Ok?
    && Bought(Deposit(w, ps[0].from, ps[0].assets).value.0, ps[1..], w')
  }

  lemma {:induction false} BoughtNumbers(w: World, ps: seq<Purchase>, w': World)
    requires Wf(w) && Bought(w, ps, w')
    ensures Wf(w') && |Amounts(ps)| == |ps| && AllMint(TotalAssets(w), w.supply, Amounts(ps))
    ensures AfterDeposits(TotalAssets(w), w.supply, Amounts(ps)) == (TotalAssets(w'), w'.supply)
    decreases |ps|
  {
    hide SharesFor, Deposit, Wf;
    if ps != [] {
      var (w1, minted) := Deposit(w, ps[0].from, ps[0].assets).value;
      DepositNumbers(w, ps[0].from, ps[0].assets, w1, minted);
      BoughtNumbers(w1, ps[1..], w');
      assert Amounts(ps)[1..] == Amounts(ps[1..]);
    }
  }

  /** The first depositor who inflates the price gains at most one unit for every later
      deposit after the first: deposit into an empty vault, donate, let anyone else
      deposit any number of times, redeem. */
  lemma DonationInVault(w: World, first: Address, assets: int, w1: World, minted: int, donation: int, w2: World,
                        ps: seq<Purchase>, w3: World, w4: World, paid: int)
    requires Wf(w) && w.supply == 0 && TotalAssets(w) == 0 && first != w.self
    requires Deposit(w, first, assets) == Ok((w1, minted))
    requires donation >= 0 && w2 == w1.(token := w2.token) && Move(w1.token, first, w1.self, donation) == Some(w2.token)
    requires 0 < |ps| <= VIRTUAL_SHARES_OFFSET && Bought(w2, ps, w3)
    requires w3.supply >= 0 && Redeem(w3, first, minted) == Ok((w4, paid))
    ensures paid <= assets + donation + |ps| - 1
  {
    hide Deposit, Redeem, SharesFor, AssetsFor, Bought, AllMint, AfterDeposits, Move, Amounts, TotalAssets, Idle, Wf;
    DepositAndDonate(w, first, assets, w1, minted, donation, w2);
    BoughtNumbers(w2, ps, w3);
    RedeemNumbers(w3, first, minted, w4, paid);
    DonationPaysAtMostOneEach(assets, donation, Amounts(ps));
  }

  lemma DepositAndDonate(w: World, from: Address, assets: int, w1: World, minted: int, donation: int, w2: World)
    requires Wf(w) && w.supply == 0 && TotalAssets(w) == 0 && from != w.self
    requires Deposit(w, from, assets) == Ok((w1, minted))
    requires donation >= 0 && w2 == w1.(token := w2.token) && Move(w1.token, from, w1.self, donation) == Some(w2.token)
    ensures Wf(w2) && w2.self == w.self && 0 < assets == minted == w2.supply
    ensures TotalAssets(w2) == assets + donation
  {
    DepositNumbers(w, from, assets, w1, minted);
    DonationNumbers(w1, from, donation, w2);
    RoundTripFreeAtPar(assets, 0);
  }

  lemma DonationNumbers(w: World, from: Address, donation: nat, w': World)
    requires Wf(w) && from != w.self
    requires w' == w.(token := w'.token) && Move(w.token, from, w.self, donation) == Some(w'.token)
    ensures Wf(w') && TotalAssets(w') == TotalAssets(w) + donation
  {
  }

  // ------------------------------------------------------------------ fees

  /** A collection by the vault: what it mints is worth at most its rate's part of the
      yield above the mark, and a second one right away is refused. */
  lemma CollectionInVault(w: World, w': World, minted: int)
    requires Wf(w) && CollectFees(w) == Ok((w', minted))
    ensures minted >= 0 && w'.supply >= 0
    ensures MAX_BPS * AssetsFor(minted, TotalAssets(w'), w'.supply)
            <= w.settings.feeBps * (TotalAssets(w) - TruncDiv(w.hwm * w.supply, NAV_PRECISION))
    ensures CollectFees(w') == Err(NoFeesToCollect)
  {
    CollectEffect(w);
    FeeDilution(TotalAssets(w), w.supply, w.hwm, w.settings.feeBps);
  }

  /** Only fee collection moves the mark. */
  lemma OtherStepsKeepMark(w: World, step: Step)
    requires Wf(w) && !step.FeesCollected?
    ensures Apply(w, step).hwm == w.hwm
  {
    hide Deposit, Redeem;
    if step.RedeemBy? {
      if Redeem(w, step.from, step.amount).Ok? { RedeemEffect(w, step.from, step.amount); }
    } else if step.DepositBy? {
      if Deposit(w, step.from, step.assets).Ok? { DepositEffect(w, step.from, step.assets); }
    }
  }

  ghost predicate EnoughSupply(w: World) {
    7 * w.supply + 10 >= 3 * VIRTUAL_SHARES_OFFSET
  }

  lemma CollectionKeepsMark(w: World)
    requires Wf(w) && EnoughSupply(w)
    ensures After(w, CollectFees(w)).hwm >= w.hwm
  {
    if CollectFees(w).Ok? { MarkNeverFalls(TotalAssets(w), w.supply, w.hwm, w.settings.feeBps); }
  }

  /** Fees are only collected while the supply is large enough. */
  ghost predicate CollectedAtSize(w: World, steps: seq<Step>)
    requires Wf(w)
    decreases |steps|
  {
    steps == [] ||
    ((steps[0].FeesCollected? ==> EnoughSupply(w)) &&
     (ApplyKeepsWf(w, steps[0]); CollectedAtSize(Apply(w, steps[0]), steps[1..])))
  }

  /** Over any run, lossy or not, the mark never falls as long as fees are only collected
      at a supply of 3/7 of the offset or more. */
  lemma {:induction false} MarkNeverFallsOverRuns(w: World, steps: seq<Step>)
    requires Wf(w) && CollectedAtSize(w, steps)
    ensures Run(w, steps).hwm >= w.hwm
    decreases |steps|
  {
    if steps != [] {
      ApplyKeepsWf(w, steps[0]);
      if steps[0].FeesCollected? { CollectionKeepsMark(w); } else { OtherStepsKeepMark(w, steps[0]); }
      MarkNeverFallsOverRuns(Apply(w, steps[0]), steps[1..]);
    }
  }
}
