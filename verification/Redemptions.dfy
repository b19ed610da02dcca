/** Splitting an exit into several redemptions, by any holders in any order, changes
    what is paid by less than one unit per extra call. */
module Redemptions {
  import opened Arith
  import opened Balances
  import opened Results
  import opened Shares
  import opened Fees
  import opened Strategies
  import opened Model
  import opened Accounting

  /** A redemption that went through: who redeemed what, for how much, and the states
      around it. */
  datatype Receipt = Receipt(before: World, holder: Address, shares: int, paid: int, after: World)

  ghost predicate IsReceipt(c: Receipt) {
    && c.before.supply >= 0 && c.holder != c.before.self
    && Redeem(c.before, c.holder, c.shares) == Ok((c.after, c.paid))
  }

  /** Names the receipt a proof wants to look into, so that long lists stay closed. */
  predicate Inspect(c: Receipt) {
    true
  }

  /** Redemptions made one after the other, starting in `w`. */
  ghost predicate Chain(w: World, cs: seq<Receipt>) {
    && Follows(w, cs)
    && (forall c {:trigger Inspect(c)} :: c in cs ==> IsReceipt(c))
  }

  predicate Follows(w: World, cs: seq<Receipt>)
    decreases |cs|
  {
    cs == [] || (cs[0].before == w && Follows(cs[0].after, cs[1..]))
  }

  function End(w: World, cs: seq<Receipt>): World {
    if cs == [] then w else cs[|cs| - 1].after
  }

  function SharesIn(cs: seq<Receipt>): int {
    if cs == [] then 0 else cs[0].shares + SharesIn(cs[1..])
  }

  function PaidIn(cs: seq<Receipt>): int {
    if cs == [] then 0 else cs[0].paid + PaidIn(cs[1..])
  }

  /** No listed strategy has recorded more than the vault tracks, so no pull saturates. */
  ghost predicate NoSurplus(w: World) {
    forall s :: s in w.strategies && s in w.deployed ==> w.deployed[s].Ledger() <= Get(w.tracked, s)
  }

  /** Funds were raised without any surplus coming to light. */
  ghost predicate RaisedEvenly(w: World, w': World) {
    Raised(w, w') && TotalAssets(w') == TotalAssets(w) && NoSurplus(w')
  }

  lemma PullWithoutSurplus(w: World, strategy: Address, amount: int)
    requires NoDuplicates(w.strategies) && Apart(w.self, w.deployed) && NoSurplus(w) && strategy in w.strategies
    requires amount > 0 && PullFrom(w, strategy, amount).Ok?
    ensures RaisedEvenly(w, PullFrom(w, strategy, amount).value.0)
  {
    PullOutcome(w, strategy, amount);
    var (w', x) := PullFrom(w, strategy, amount).value;
    PulledWithoutSurplus(w, w', strategy, x);
  }

  lemma PulledWithoutSurplus(w: World, w': World, strategy: Address, x: nat)
    requires NoDuplicates(w.strategies) && Apart(w.self, w.deployed) && NoSurplus(w)
    requires strategy in w.strategies && strategy in w.deployed
    requires Pulled(w, w', strategy, x) && w.deployed[strategy].CanPay(w.self, x)
    ensures RaisedEvenly(w, w')
  {
    PulledEffect(w, w', strategy, x);
    DrawnFacts(w.deployed[strategy], x);
  }

  lemma {:induction false} WaterfallWithoutSurplus(w: World, pending: seq<Address>, remaining: int)
    requires NoDuplicates(w.strategies) && Apart(w.self, w.deployed) && NoSurplus(w)
    requires forall s :: s in pending ==> s in w.strategies
    requires Waterfall(w, pending, remaining).Ok?
    ensures RaisedEvenly(w, Waterfall(w, pending, remaining).value.0)
    decreases |pending|
  {
    if pending != [] && remaining > 0 {
      var w1, left := HopWithoutSurplus(w, pending[0], remaining);
      WaterfallWithoutSurplus(w1, pending[1..], left);
      RaisedOnward(w, w1, Waterfall(w1, pending[1..], left).value.0);
    }
  }

  lemma HopWithoutSurplus(w: World, strategy: Address, remaining: int) returns (w1: World, left: int)
    requires NoDuplicates(w.strategies) && Apart(w.self, w.deployed) && NoSurplus(w) && strategy in w.strategies
    requires remaining > 0 && Hop(w, strategy, remaining).Ok?
    ensures Hop(w, strategy, remaining).value == (w1, left)
    ensures RaisedEvenly(w, w1) && Apart(w1.self, w1.deployed)
  {
    w1, left := Hop(w, strategy, remaining).value.0, Hop(w, strategy, remaining).value.1;
    var asked := HopPulls(w, strategy, remaining);
    if asked > 0 { PullWithoutSurplus(w, strategy, asked); }
    ApartKept(w.self, w.deployed, w1.deployed);
  }

  lemma PayOutWithoutSurplus(w: World, from: Address, shares: nat, assets: nat)
    requires Wf(w) && NoSurplus(w) && from != w.self && PayOut(w, from, shares, assets).Ok?
    ensures var w' := PayOut(w, from, shares, assets).value.0;
            TotalAssets(w') == TotalAssets(w) - assets && NoSurplus(w') && w'.self == w.self
  {
    var w1, need := PayOutParts(w, from, shares, assets);
    WaterfallWithoutSurplus(w, w.strategies, need);
    RaisedKeepsWf(w, w1);
    BurnAndPayEffect(w1, from, shares, assets);
    BurnAndPayLeaves(w1, from, shares, assets);
  }

  /** The bounds as products, with x = assets + offset and y = supply + offset: the total
      paid `t` for `s` shares in `n` calls satisfies t*y <= s*x <= (t + n)*y, the last
      strictly once there is a call. */
  ghost predicate Within(t: int, s: int, n: nat, x: int, y: int) {
    && t * y <= s * x && s * x <= (t + n) * y
    && (n > 0 ==> s * x < (t + n) * y)
  }

  lemma OneMoreRedemption(x: int, y: int, shares: nat, paid: nat, t: int, s: nat, n: nat)
    requires y > 0 && shares + s < y
    requires PricedDown(paid, shares, x, y) && Within(t, s, n, x - paid, y - shares)
    ensures Within(paid + t, shares + s, n + 1, x, y)
  {
    var x1, y1 := x - paid, y - shares;
    // the price has not fallen
    assert x1 * y == x * y - paid * y && x * y1 == x * y - shares * x;
    UpperBound(x, y, shares, paid, t, s);
    LowerBound(x, y, x1, y1, t, s, n);
    assert (paid + t + (n + 1)) * y == paid * y + y + (t + n) * y;
    assert (shares + s) * x == shares * x + s * x;
  }

  lemma UpperBound(x: int, y: int, shares: nat, paid: nat, t: int, s: nat)
    requires y > 0 && shares + s < y
    requires x * (y - shares) <= (x - paid) * y && t * (y - shares) <= s * (x - paid)
    ensures (paid + t) * y <= (shares + s) * x
  {
    var x1, y1 := x - paid, y - shares;
    assert (x1 - t) * y1 == x1 * y1 - t * y1;
    assert x1 * (y1 - s) == x1 * y1 - s * x1;
    PriceChain(x1 - t, y1 - s, x1, y1, x, y);
    assert (x1 - t) * y == x * y - (paid + t) * y;
    assert x * (y1 - s) == x * y - (shares + s) * x;
  }

  /** If p/q is at least x1/y1 and x1/y1 at least x/y, then p/q is at least x/y. */
  lemma PriceChain(p: int, q: nat, x1: int, y1: int, x: int, y: int)
    requires y > 0 && y1 > 0 && p * y1 >= x1 * q && x1 * y >= x * y1
    ensures p * y >= x * q
  {
  }

  lemma LowerBound(x: int, y: int, x1: int, y1: int, t: int, s: nat, n: nat)
    requires y > 0 && y1 > 0 && x * y1 <= x1 * y && s * x1 <= (t + n) * y1
    ensures s * x <= (t + n) * y
  {
  }

  /** From `w` to `end`, supply has gone down by `s` shares and assets by `t`, paid in `n`
      calls and within the bounds. */
  ghost predicate Totals(w: World, end: World, s: int, t: int, n: nat)
    requires w.supply >= 0
  {
    && Wf(end) && 0 <= s == w.supply - end.supply && TotalAssets(end) == TotalAssets(w) - t
    && Within(t, s, n, TotalAssets(w) + VIRTUAL_SHARES_OFFSET, w.supply + VIRTUAL_SHARES_OFFSET)
  }

  /** The calls reduce supply by the shares they burn and assets by what they pay, and
      the total paid is within the bounds. */
  lemma {:induction false} ChainBounds(w: World, cs: seq<Receipt>)
    requires Wf(w) && NoSurplus(w) && Chain(w, cs)
    ensures Totals(w, End(w, cs), SharesIn(cs), PaidIn(cs), |cs|)
    decreases |cs|
  {
    if cs != [] {
      ChainHead(w, cs);
      ReceiptFacts(cs[0]);
      ChainBounds(cs[0].after, cs[1..]);
      assert End(cs[0].after, cs[1..]) == End(w, cs);
      OneMoreReceipt(cs[0], End(w, cs), SharesIn(cs[1..]), PaidIn(cs[1..]), |cs| - 1);
    }
  }

  lemma ChainHead(w: World, cs: seq<Receipt>)
    requires Chain(w, cs) && cs != []
    ensures IsReceipt(cs[0]) && cs[0].before == w && Chain(cs[0].after, cs[1..])
  {
    assert Inspect(cs[0]);
    forall c | c in cs[1..] ensures IsReceipt(c) { assert Inspect(c); }
  }

  /** One call on its own: exact changes, and a payment priced down by less than a unit. */
  ghost predicate Once(w: World, w': World, shares: int, paid: int)
    requires w.supply >= 0
  {
    && Wf(w') && NoSurplus(w')
    && 0 < shares <= w.supply && paid > 0
    && w'.supply == w.supply - shares && TotalAssets(w') == TotalAssets(w) - paid
    && PricedDown(paid, shares, TotalAssets(w) + VIRTUAL_SHARES_OFFSET, w.supply + VIRTUAL_SHARES_OFFSET)
  }

  ghost predicate PricedDown(paid: int, shares: int, x: int, y: int) {
    paid * y <= shares * x < paid * y + y
  }

  lemma OneMoreReceipt(c: Receipt, end: World, s: nat, t: int, n: nat)
    requires c.before.supply >= 0 && c.after.supply >= 0
    requires Once(c.before, c.after, c.shares, c.paid) && Totals(c.after, end, s, t, n)
    ensures Totals(c.before, end, c.shares + s, c.paid + t, n + 1)
  {
    OneMoreRedemption(TotalAssets(c.before) + VIRTUAL_SHARES_OFFSET, c.before.supply + VIRTUAL_SHARES_OFFSET,
                      c.shares, c.paid, t, s, n);
  }

  lemma ReceiptFacts(c: Receipt)
    requires Wf(c.before) && NoSurplus(c.before) && IsReceipt(c)
    ensures Once(c.before, c.after, c.shares, c.paid)
  {
    RedeemEffect(c.before, c.holder, c.shares);
    var assets := AssetsFor(c.shares, TotalAssets(c.before), c.before.supply);
    PayOutWithoutSurplus(c.before, c.holder, c.shares, assets);
    QuotePricedDown(c.shares, TotalAssets(c.before), c.before.supply);
  }

  lemma QuotePricedDown(shares: nat, a: nat, s: nat)
    ensures PricedDown(AssetsFor(shares, a, s), shares, a + VIRTUAL_SHARES_OFFSET, s + VIRTUAL_SHARES_OFFSET)
  {
    AssetsForBounds(shares, a, s);
  }

  /** The total paid by n successful redemptions of s shares is at most what one
      redemption of s would be quoted, and short of it by at most n - 1 units. */
  lemma SplittingCostsAtMostOneEach(w: World, cs: seq<Receipt>)
    requires Wf(w) && NoSurplus(w) && Chain(w, cs) && cs != []
    ensures var quote := AssetsFor(SharesIn(cs), TotalAssets(w), w.supply);
            quote - (|cs| - 1) <= PaidIn(cs) <= quote
  {
    ChainBounds(w, cs);
    WithinQuote(PaidIn(cs), SharesIn(cs), |cs|, TotalAssets(w), w.supply);
  }

  lemma WithinQuote(t: int, shares: nat, n: nat, a: nat, s: nat)
    requires n > 0 && Within(t, shares, n, a + VIRTUAL_SHARES_OFFSET, s + VIRTUAL_SHARES_OFFSET)
    ensures AssetsFor(shares, a, s) - (n - 1) <= t <= AssetsFor(shares, a, s)
  {
    var x, y := a + VIRTUAL_SHARES_OFFSET, s + VIRTUAL_SHARES_OFFSET;
    MulLe(0, shares, x);
    FloorAtLeast(shares * x, y, t);
    assert (t + n - 1) * y + y == (t + n) * y;
    FloorAtMost(shares * x, y, t + n - 1);
  }

  /** When the calls redeem the whole supply, what stays behind is at most the offset's
      part of the profit, rounded, plus one unit per call. */
  lemma DustLeftBehind(w: World, cs: seq<Receipt>)
    requires Wf(w) && NoSurplus(w) && Chain(w, cs) && cs != [] && SharesIn(cs) == w.supply
    ensures End(w, cs).supply == 0
    ensures TotalAssets(End(w, cs)) * (w.supply + VIRTUAL_SHARES_OFFSET)
            < VIRTUAL_SHARES_OFFSET * (TotalAssets(w) - w.supply) + |cs| * (w.supply + VIRTUAL_SHARES_OFFSET)
  {
    ChainBounds(w, cs);
    DustProducts(TotalAssets(w), w.supply, PaidIn(cs), |cs|);
  }

  lemma DustProducts(a: nat, s: nat, t: int, n: nat)
    requires n > 0 && Within(t, s, n, a + VIRTUAL_SHARES_OFFSET, s + VIRTUAL_SHARES_OFFSET)
    ensures (a - t) * (s + VIRTUAL_SHARES_OFFSET)
            < VIRTUAL_SHARES_OFFSET * (a - s) + n * (s + VIRTUAL_SHARES_OFFSET)
  {
  }

  // ------------------------------------------------------------------ fees on redemptions

  /** The yield a fee would be charged on in `w`. */
  function YieldAboveMark(w: World): int {
    TotalAssets(w) - TruncDiv(w.hwm * w.supply, NAV_PRECISION)
  }

  /** No one has earned anything, but a redemption leaves the others with more assets per
      share whenever there is a profit, and the vault with a yield to charge a fee on: no
      more of it than the offset's share of the redeemed profit, and rounding; and due
      exactly when the rest of the assets reaches the step above the mark. */
  lemma RedemptionMakesYield(w: World, holder: Address, shares: int)
    requires Wf(w) && NoSurplus(w) && holder != w.self && Redeem(w, holder, shares).Ok?
    requires shares < w.supply <= TotalAssets(w)
    requires TruncDiv(TotalAssets(w) * NAV_PRECISION, w.supply) <= w.hwm
    ensures var w' := Redeem(w, holder, shares).value.0;
            var a, s := TotalAssets(w), w.supply;
            && w'.hwm == w.hwm && w'.supply > 0
            && a * w'.supply <= TotalAssets(w') * s
            && (a * w'.supply < TotalAssets(w') * s <==> s < a)
            && (YieldAboveMark(w') - 2) * (s * (s + VIRTUAL_SHARES_OFFSET)) * NAV_PRECISION
               < VIRTUAL_SHARES_OFFSET * (shares * (a - s)) * NAV_PRECISION
                 + w'.supply * (s * (s + VIRTUAL_SHARES_OFFSET))
            && (TruncDiv(TotalAssets(w') * NAV_PRECISION, w'.supply) > w'.hwm
                <==> (w'.hwm + 1) * w'.supply <= TotalAssets(w') * NAV_PRECISION)
  {
    hide Redeem, AssetsFor, PricedDown, NoSurplus, TotalAssets;
    RedeemEffect(w, holder, shares);
    RedeemLeaves(w, holder, shares);
    RedemptionLiftsNavIff(shares, TotalAssets(w), w.supply);
    PhantomYield(shares, TotalAssets(w), w.supply, w.hwm);
  }

  lemma RedeemLeaves(w: World, holder: Address, shares: int)
    requires Wf(w) && NoSurplus(w) && holder != w.self && Redeem(w, holder, shares).Ok?
    ensures TotalAssets(Redeem(w, holder, shares).value.0)
            == TotalAssets(w) - AssetsFor(shares, TotalAssets(w), w.supply)
  {
    PayOutWithoutSurplus(w, holder, shares, AssetsFor(shares, TotalAssets(w), w.supply));
  }
}
