/** The same arithmetic carried out in 128-bit signed integers with overflow checks, as
    the contracts are compiled, in the order the contracts evaluate it. */
module Checked {
  import opened Arith
  import opened Balances
  import opened Shares
  import opened Fees
  import opened Model

  const I128_MAX := 0x7FFF_FFFF_FFFF_FFFF_FFFF_FFFF_FFFF_FFFF
  const I128_MIN := -0x8000_0000_0000_0000_0000_0000_0000_0000
  const TOKEN_LIMIT := 0x8000_0000_0000_0000   // 2^63, the limit of a Stellar asset's supply

  /** A 128-bit result, or the abort that overflow causes. */
  datatype I128<+T> = Fits(value: T) | Overflow {
    predicate IsFailure() { Overflow? }
    function PropagateFailure<U>(): I128<U>
      requires Overflow?
    {
      Overflow
    }
    function Extract(): T
      requires Fits?
    {
      value
    }
  }

  function Checked(n: int): I128<int> {
    if I128_MIN <= n <= I128_MAX then Fits(n) else Overflow
  }

  function Add(a: int, b: int): I128<int> { Checked(a + b) }
  function Sub(a: int, b: int): I128<int> { Checked(a - b) }
  function Mul(a: int, b: int): I128<int> { Checked(a * b) }
  function Div(a: int, b: int): I128<int> { if b == 0 then Overflow else Checked(TruncDiv(a, b)) }

  // ------------------------------------------------------------------ the entry points' arithmetic

  /** `total_assets`, accumulated strategy by strategy. */
  function CheckedStrategyTotal(strategies: seq<Address>, tracked: Table, acc: int): I128<int> {
    if strategies == [] then Fits(acc) else
    var next :- Add(acc, Get(tracked, strategies[0]));
    CheckedStrategyTotal(strategies[1..], tracked, next)
  }

  function CheckedTotalAssets(w: World): I128<int> {
    var strategyTotal :- CheckedStrategyTotal(w.strategies, w.tracked, 0);
    var local :- Add(Idle(w), strategyTotal);
    Add(local, EffectiveBridged(w))
  }

  function CheckedSharesFor(assets: int, a: int, s: int): I128<int> {
    var y :- Add(s, VIRTUAL_SHARES_OFFSET);
    var n :- Mul(assets, y);
    var x :- Add(a, VIRTUAL_SHARES_OFFSET);
    Div(n, x)
  }

  function CheckedAssetsFor(shares: int, a: int, s: int): I128<int> {
    var x :- Add(a, VIRTUAL_SHARES_OFFSET);
    var n :- Mul(shares, x);
    var y :- Add(s, VIRTUAL_SHARES_OFFSET);
    Div(n, y)
  }

  /** What a deposit computes. */
  datatype DepositSums = DepositSums(minted: int, held: int, supply: int)

  /** Shares minted by a deposit, the depositor's new balance and the new supply; the cap
      sum is only formed when a cap is set. */
  function CheckedDeposit(assets: int, a: int, s: int, cap: int, held: int): I128<DepositSums> {
    var _ :- if cap > 0 then Add(a, assets) else Fits(0);
    var minted :- CheckedSharesFor(assets, a, s);
    var balance :- Add(held, minted);
    var supply :- Add(s, minted);
    Fits(DepositSums(minted, balance, supply))
  }

  /** One strategy visited by the waterfall: what the vault tracks there and what it
      returned. */
  datatype Pull = Pull(tracked: int, withdrawn: int)

  /** The waterfall's subtractions: the vault's new records, and what remains to be
      raised. */
  function CheckedRaise(pulls: seq<Pull>, remaining: int): I128<(seq<int>, int)> {
    if pulls == [] then Fits(([], remaining)) else
    var p := pulls[0];
    var tracked :- if p.withdrawn > p.tracked then Fits(0) else Sub(p.tracked, p.withdrawn);
    var left :- if p.withdrawn >= remaining then Fits(0) else Sub(remaining, p.withdrawn);
    var rest :- CheckedRaise(pulls[1..], left);
    Fits(([tracked] + rest.0, rest.1))
  }

  /** The same, exactly. */
  function ExactRaise(pulls: seq<Pull>, remaining: int): (seq<int>, int) {
    if pulls == [] then ([], remaining) else
    var p := pulls[0];
    var tracked := if p.withdrawn > p.tracked then 0 else p.tracked - p.withdrawn;
    var left := if p.withdrawn >= remaining then 0 else remaining - p.withdrawn;
    var rest := ExactRaise(pulls[1..], left);
    ([tracked] + rest.0, rest.1)
  }

  /** What a redemption computes. */
  datatype RedeemSums = RedeemSums(assets: int, records: seq<int>, left: int, held: int, supply: int)

  /** Assets paid by a redemption, the records and the rest of the shortfall after the
      waterfall if there is one, the holder's new balance and the new supply. */
  function CheckedRedeem(shares: int, a: int, s: int, idle: int, pulls: seq<Pull>, held: int): I128<RedeemSums> {
    var assets :- CheckedAssetsFor(shares, a, s);
    var shortfall :- if idle < assets then Sub(assets, idle) else Fits(0);
    var raised :- if idle < assets then CheckedRaise(pulls, shortfall) else Fits(([], 0));
    var balance :- Sub(held, shares);
    var supply :- Sub(s, shares);
    Fits(RedeemSums(assets, raised.0, raised.1, balance, supply))
  }

  /** The buffer an allocation must respect and the idle funds it would leave. */
  function CheckedAllocate(amount: int, a: int, idle: int, bps: int): I128<(int, int)> {
    var n :- Mul(a, bps);
    var minIdle :- Div(n, MAX_BPS);
    var idleAfter :- Sub(idle, amount);
    Fits((minIdle, idleAfter))
  }

  function CheckedNav(a: int, s: int): I128<int> {
    var scaled :- Mul(a, NAV_PRECISION);
    Div(scaled, s)
  }

  function CheckedFeeFor(a: int, s: int, h: int, bps: int): I128<FeeQuote>
    requires a >= 0 && s >= 0
  {
    if s == 0 then Fits(NoFee) else
    var currentNav :- CheckedNav(a, s);
    if currentNav <= h then Fits(NoFee) else
    if bps == 0 then Fits(NoFee) else
    var product :- Mul(h, s);
    var hwmAssets :- Div(product, NAV_PRECISION);
    var totalYield :- Sub(a, hwmAssets);
    var weighted :- Mul(totalYield, bps);
    var feeAssets :- Div(weighted, MAX_BPS);
    var feeShares :- CheckedSharesFor(feeAssets, a, s);
    if feeShares <= 0 then Fits(NoFee) else
    var newSupply :- Add(s, feeShares);
    var newHwm :- CheckedNav(a, newSupply);
    Fits(Fee(feeAssets, feeShares, newHwm))
  }

  /** The fee together with the recipient's new balance. */
  function CheckedCollect(a: int, s: int, h: int, bps: int, held: int): I128<(FeeQuote, int)>
    requires a >= 0 && s >= 0
  {
    var q :- CheckedFeeFor(a, s, h, bps);
    if q.NoFee? then Fits((q, held)) else
    var balance :- Add(held, q.shares);
    Fits((q, balance))
  }

  // ------------------------------------------------------------------ no overflow

  lemma ProductFits(p: nat, q: nat)
    requires p <= TOKEN_LIMIT && q <= TOKEN_LIMIT + VIRTUAL_SHARES_OFFSET
    ensures 0 <= p * q <= I128_MAX
  {
    MulLe(0, p, q);
    MulLe(p, TOKEN_LIMIT, q);
  }

  lemma QuotientSmaller(n: nat, d: int, limit: int)
    requires d > 0 && n <= limit
    ensures 0 <= TruncDiv(n, d) <= limit
  {
    FloorBounds(n, d);
    MulLe(1, d, TruncDiv(n, d));
  }

  lemma {:induction false} StrategyTotalFits(strategies: seq<Address>, tracked: Table, acc: nat)
    requires acc + TrackedSum(strategies, tracked) < TOKEN_LIMIT
    ensures CheckedStrategyTotal(strategies, tracked, acc) == Fits(acc + TrackedSum(strategies, tracked))
  {
    if strategies != [] { StrategyTotalFits(strategies[1..], tracked, acc + Get(tracked, strategies[0])); }
  }

  lemma TotalAssetsFits(w: World)
    requires TotalAssets(w) < TOKEN_LIMIT
    ensures CheckedTotalAssets(w) == Fits(TotalAssets(w))
  {
    StrategyTotalFits(w.strategies, w.tracked, 0);
  }

  lemma SharesForFits(assets: nat, a: nat, s: nat)
    requires assets < TOKEN_LIMIT && a < TOKEN_LIMIT && s < TOKEN_LIMIT
    ensures CheckedSharesFor(assets, a, s) == Fits(SharesFor(assets, a, s))
  {
    ProductFits(assets, s + VIRTUAL_SHARES_OFFSET);
    QuotientSmaller(assets * (s + VIRTUAL_SHARES_OFFSET), a + VIRTUAL_SHARES_OFFSET, I128_MAX);
  }

  lemma AssetsForFits(shares: nat, a: nat, s: nat)
    requires shares < TOKEN_LIMIT && a < TOKEN_LIMIT && s < TOKEN_LIMIT
    ensures CheckedAssetsFor(shares, a, s) == Fits(AssetsFor(shares, a, s))
  {
    ProductFits(shares, a + VIRTUAL_SHARES_OFFSET);
    QuotientSmaller(shares * (a + VIRTUAL_SHARES_OFFSET), s + VIRTUAL_SHARES_OFFSET, I128_MAX);
  }

  /** With a solvent vault and less than 2^63 units of the asset about, no entry point's
      arithmetic overflows: the checked results are the exact ones. */
  lemma DepositFits(assets: nat, a: nat, s: nat, cap: int, held: nat)
    requires assets < TOKEN_LIMIT && held <= s <= a < TOKEN_LIMIT
    ensures var m := SharesFor(assets, a, s);
            CheckedDeposit(assets, a, s, cap, held) == Fits(DepositSums(m, held + m, s + m))
  {
    SharesForFits(assets, a, s);
    DepositStep(assets, a, s);
    SharesForBounds(assets, a, s);
  }

  /** The waterfall's subtractions cannot overflow, whatever the strategies return. */
  lemma {:induction false} RaiseFits(pulls: seq<Pull>, remaining: int)
    requires 0 <= remaining <= I128_MAX
    requires forall i :: 0 <= i < |pulls| ==> 0 <= pulls[i].tracked <= I128_MAX && 0 <= pulls[i].withdrawn <= I128_MAX
    ensures CheckedRaise(pulls, remaining) == Fits(ExactRaise(pulls, remaining))
  {
    if pulls != [] {
      var p := pulls[0];
      RaiseFits(pulls[1..], if p.withdrawn >= remaining then 0 else remaining - p.withdrawn);
    }
  }

  lemma RedeemFits(shares: nat, a: nat, s: nat, idle: nat, pulls: seq<Pull>, held: nat)
    requires shares <= held <= s <= a < TOKEN_LIMIT && idle <= a
    requires forall i :: 0 <= i < |pulls| ==> 0 <= pulls[i].tracked <= I128_MAX && 0 <= pulls[i].withdrawn <= I128_MAX
    ensures var r := AssetsFor(shares, a, s);
            var (records, left) := if idle < r then ExactRaise(pulls, r - idle) else ([], 0);
            CheckedRedeem(shares, a, s, idle, pulls, held)
            == Fits(RedeemSums(r, records, left, held - shares, s - shares))
  {
    AssetsForFits(shares, a, s);
    RedeemStep(shares, a, s);
    var r := AssetsFor(shares, a, s);
    if idle < r { RaiseFits(pulls, r - idle); }
  }

  lemma AllocateFits(amount: nat, a: nat, idle: nat, bps: nat)
    requires amount <= I128_MAX && idle <= a < TOKEN_LIMIT && bps <= MAX_IDLE_BUFFER_BPS
    ensures CheckedAllocate(amount, a, idle, bps) == Fits((TruncDiv(a * bps, MAX_BPS), idle - amount))
  {
    ProductFits(bps, a);
    assert a * bps == bps * a;
    QuotientSmaller(a * bps, MAX_BPS, I128_MAX);
  }

  /** Whatever 128-bit value the mark has: its product with the supply is only formed
      once the current price is known to exceed it. */
  lemma FeeFits(a: nat, s: nat, h: nat, bps: nat)
    requires s <= a < TOKEN_LIMIT && bps <= MAX_PERFORMANCE_FEE_BPS
    ensures CheckedFeeFor(a, s, h, bps) == Fits(FeeFor(a, s, h, bps))
  {
    ProductFits(NAV_PRECISION, a);
    if s > 0 {
      QuotientSmaller(a * NAV_PRECISION, s, I128_MAX);
      if TruncDiv(a * NAV_PRECISION, s) > h && bps > 0 {
        ProductBelowPrice(a, s, h);
        var hwmAssets := TruncDiv(h * s, NAV_PRECISION);
        var totalYield := a - hwmAssets;
        ProductFits(bps, totalYield);
        FeeAssetsBelowYield(totalYield, bps);
        var feeAssets := TruncDiv(totalYield * bps, MAX_BPS);
        SharesForFits(feeAssets, a, s);
        DepositStep(feeAssets, a, s);
        SharesForBounds(feeAssets, a, s);
        QuotientSmaller(a * NAV_PRECISION, s + SharesFor(feeAssets, a, s), I128_MAX);
      }
    }
  }

  /** The recipient's balance, part of the supply, has room for the fee shares. */
  lemma CollectFits(a: nat, s: nat, h: nat, bps: nat, held: nat)
    requires held <= s <= a < TOKEN_LIMIT && bps <= MAX_PERFORMANCE_FEE_BPS
    ensures var q := FeeFor(a, s, h, bps);
            CheckedCollect(a, s, h, bps, held) == Fits((q, if q.NoFee? then held else held + q.shares))
  {
    FeeFits(a, s, h, bps);
    var q := FeeFor(a, s, h, bps);
    if q.Fee? { FeeSharesFit(a, s, h, bps); }
  }

  lemma FeeSharesFit(a: nat, s: nat, h: nat, bps: nat)
    requires FeeFor(a, s, h, bps).Fee? && s <= a && bps <= MAX_PERFORMANCE_FEE_BPS
    ensures FeeFor(a, s, h, bps).shares <= a
  {
    var q := FeeFor(a, s, h, bps);
    FeeFacts(a, s, h, bps);
    FeeWithinAssets(a, s, a - TruncDiv(h * s, NAV_PRECISION), bps, q.assets, q.shares);
  }

  lemma FeeWithinAssets(a: nat, s: nat, y: nat, bps: nat, fee: nat, f: nat)
    requires s <= a && y <= a && bps <= MAX_BPS && MAX_BPS * fee <= y * bps
    requires f * (a + VIRTUAL_SHARES_OFFSET) <= fee * (s + VIRTUAL_SHARES_OFFSET)
    ensures f <= a
  {
    MulLe(bps, MAX_BPS, y);
    MulLe(s + VIRTUAL_SHARES_OFFSET, a + VIRTUAL_SHARES_OFFSET, fee);
    MulCancelLe(f, fee, a + VIRTUAL_SHARES_OFFSET);
  }

  lemma ProductBelowPrice(a: nat, s: nat, h: nat)
    requires s > 0 && h <= TruncDiv(a * NAV_PRECISION, s)
    ensures 0 <= h * s <= a * NAV_PRECISION
    ensures 0 <= TruncDiv(h * s, NAV_PRECISION) <= a
  {
  }

  lemma FeeAssetsBelowYield(y: nat, bps: nat)
    requires bps <= MAX_BPS
    ensures y * bps == bps * y
    ensures 0 <= TruncDiv(y * bps, MAX_BPS) <= y
  {
  }

  /** The order matters: here the fee computation finishes, but the product formed first
      would have aborted it. */
  lemma EagerProductWouldOverflow()
    ensures var s, h := 0x4000_0000_0000_0000, 0x40_0000_0000_0000_0000_0000;
            && s < TOKEN_LIMIT && h <= I128_MAX
            && CheckedFeeFor(s, s, h, 1_500) == Fits(NoFee) && Mul(h, s) == Overflow
  {
  }
}
