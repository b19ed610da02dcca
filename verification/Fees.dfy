/** Performance fees over a high-water mark, as arithmetic on total assets,
    total supply, the mark and the fee rate. */
module Fees {
  import opened Arith
  import opened Shares

  /** Either nothing is due, or `shares` are minted against `assets` of yield and the
      mark moves to `hwm`. */
  datatype FeeQuote = NoFee | Fee(assets: int, shares: nat, hwm: int)

  function FeeFor(totalAssets: nat, totalSupply: nat, hwm: int, feeBps: nat): FeeQuote {
    if totalSupply == 0 then NoFee else
    var currentNav := TruncDiv(totalAssets * NAV_PRECISION, totalSupply);
    if currentNav <= hwm then NoFee else
    if feeBps == 0 then NoFee else
    var hwmAssets := TruncDiv(hwm * totalSupply, NAV_PRECISION);
    var totalYield := totalAssets - hwmAssets;
    var feeAssets := TruncDiv(totalYield * feeBps, MAX_BPS);
    var feeShares := SharesFor(feeAssets, totalAssets, totalSupply);
    if feeShares <= 0 then NoFee else
    Fee(feeAssets, feeShares, TruncDiv(totalAssets * NAV_PRECISION, totalSupply + feeShares))
  }

  /** The facts a charged fee gives about its inputs, as products only. */
  lemma FeeFacts(a: nat, s: nat, h: nat, bps: nat)
    requires FeeFor(a, s, h, bps).Fee?
    ensures var q := FeeFor(a, s, h, bps);
            var y := a - TruncDiv(h * s, NAV_PRECISION);
            && s > 0 && bps > 0 && q.shares > 0 && q.assets > 0 && y > 0
            && TruncDiv(h * s, NAV_PRECISION) >= 0
            && (h + 1) * s <= a * NAV_PRECISION
            && y * NAV_PRECISION < a * NAV_PRECISION - h * s + NAV_PRECISION
            && MAX_BPS * q.assets <= y * bps
            && q.shares * (a + VIRTUAL_SHARES_OFFSET) <= q.assets * (s + VIRTUAL_SHARES_OFFSET)
            && q.hwm == TruncDiv(a * NAV_PRECISION, s + q.shares)
  {
    var P := NAV_PRECISION;
    var q := FeeFor(a, s, h, bps);
    FloorBounds(a * P, s);
    var nav := TruncDiv(a * P, s);
    MulLe(h + 1, nav, s);
    MulLe(0, h, s);
    FloorBounds(h * s, P);
    assert (h + 1) * s == h * s + s;
    var y := a - TruncDiv(h * s, P);
    assert y > 0;
    MulLe(0, y, bps);
    FloorBounds(y * bps, MAX_BPS);
    SharesForBounds(q.assets, a, s);
  }

  /** The price of the supply exceeds the mark, and a rate is set. */
  predicate AboveMark(a: nat, s: nat, h: nat, bps: nat) {
    s > 0 && (h + 1) * s <= a * NAV_PRECISION && bps > 0
  }

  /** The supply's worth at the mark and the rate's part of what exceeds it, both rounded
      down. */
  predicate FeeInAssets(a: nat, s: nat, h: nat, bps: nat, worth: nat, fee: nat) {
    && worth * NAV_PRECISION <= h * s < worth * NAV_PRECISION + NAV_PRECISION
    && fee * MAX_BPS <= (a - worth) * bps < fee * MAX_BPS + MAX_BPS
  }

  /** The shares for the fee and the price after them, both rounded down. */
  predicate FeeInShares(a: nat, s: nat, fee: nat, f: nat, mark: nat) {
    && f * (a + VIRTUAL_SHARES_OFFSET) <= fee * (s + VIRTUAL_SHARES_OFFSET)
    && fee * (s + VIRTUAL_SHARES_OFFSET) < f * (a + VIRTUAL_SHARES_OFFSET) + a + VIRTUAL_SHARES_OFFSET
    && mark * (s + f) <= a * NAV_PRECISION < mark * (s + f) + s + f
  }

  ghost predicate FeeTerms(a: nat, s: nat, h: nat, bps: nat, worth: nat, fee: nat, f: nat, mark: nat) {
    FeeInAssets(a, s, h, bps, worth, fee) && FeeInShares(a, s, fee, f, mark)
  }

  /** Exactly when a fee is due: above the mark, at any positive rate, if the rate's part of
      the yield buys a share. */
  lemma FeeDueIff(a: nat, s: nat, h: nat, bps: nat)
    ensures FeeFor(a, s, h, bps).Fee? <==>
              AboveMark(a, s, h, bps)
              && exists worth: nat, fee: nat :: FeeInAssets(a, s, h, bps, worth, fee)
                                                && fee * (s + VIRTUAL_SHARES_OFFSET) >= a + VIRTUAL_SHARES_OFFSET
  {
    if FeeFor(a, s, h, bps).Fee? {
      var q := FeeFor(a, s, h, bps);
      FeeHasTerms(a, s, h, bps);
      MulLe(1, q.shares, a + VIRTUAL_SHARES_OFFSET);
      assert FeeInAssets(a, s, h, bps, TruncDiv(h * s, NAV_PRECISION), q.assets);
    } else if AboveMark(a, s, h, bps) {
      forall worth: nat, fee: nat | FeeInAssets(a, s, h, bps, worth, fee)
        ensures fee * (s + VIRTUAL_SHARES_OFFSET) < a + VIRTUAL_SHARES_OFFSET
      {
        if fee * (s + VIRTUAL_SHARES_OFFSET) >= a + VIRTUAL_SHARES_OFFSET {
          var f, mark := BoughtByFee(a, s, fee);
          TermsAreFee(a, s, h, bps, worth, fee, f, mark);
        }
      }
    }
  }

  lemma BoughtByFee(a: nat, s: nat, fee: nat) returns (f: nat, mark: nat)
    requires s > 0 && fee * (s + VIRTUAL_SHARES_OFFSET) >= a + VIRTUAL_SHARES_OFFSET
    ensures f > 0 && FeeInShares(a, s, fee, f, mark)
  {
    SharesForBounds(fee, a, s);
    f := SharesFor(fee, a, s);
    FloorAtLeast(fee * (s + VIRTUAL_SHARES_OFFSET), a + VIRTUAL_SHARES_OFFSET, 1);
    FloorBounds(a * NAV_PRECISION, s + f);
    mark := TruncDiv(a * NAV_PRECISION, s + f);
  }

  /** What is charged is what the products say and nothing less ... */
  lemma FeeHasTerms(a: nat, s: nat, h: nat, bps: nat)
    requires FeeFor(a, s, h, bps).Fee?
    ensures AboveMark(a, s, h, bps)
    ensures var q := FeeFor(a, s, h, bps);
            && TruncDiv(h * s, NAV_PRECISION) >= 0 && q.assets >= 0 && q.shares > 0 && q.hwm >= 0
            && FeeTerms(a, s, h, bps, TruncDiv(h * s, NAV_PRECISION), q.assets, q.shares, q.hwm)
  {
    var q := FeeFor(a, s, h, bps);
    FeeFacts(a, s, h, bps);
    var y := a - TruncDiv(h * s, NAV_PRECISION);
    MulLe(0, h, s);
    FloorBounds(h * s, NAV_PRECISION);
    MulLe(0, y, bps);
    FloorBounds(y * bps, MAX_BPS);
    SharesForBounds(q.assets, a, s);
    FloorBounds(a * NAV_PRECISION, s + q.shares);
  }

  /** ... and amounts that fit the products are what is charged. */
  lemma TermsAreFee(a: nat, s: nat, h: nat, bps: nat, worth: nat, fee: nat, f: nat, mark: nat)
    requires AboveMark(a, s, h, bps) && f > 0 && FeeTerms(a, s, h, bps, worth, fee, f, mark)
    ensures FeeFor(a, s, h, bps) == Fee(fee, f, mark)
  {
    NavAboveMarkIff(a * NAV_PRECISION, s, h);
    MulLe(0, h, s);
    FloorUnique(h * s, NAV_PRECISION, worth);
    MulLe(0, fee, MAX_BPS);
    FloorUnique((a - worth) * bps, MAX_BPS, fee);
    MulLe(0, fee, s + VIRTUAL_SHARES_OFFSET);
    FloorUnique(fee * (s + VIRTUAL_SHARES_OFFSET), a + VIRTUAL_SHARES_OFFSET, f);
    FloorUnique(a * NAV_PRECISION, s + f, mark);
  }

  /** The mark and the solvency of the vault support each other: a mark at par or
      above is what keeps supply within assets, which keeps the new mark at par. */
  lemma FeeKeepsSupplyCovered(a: nat, s: nat, h: nat, bps: nat)
    requires FeeFor(a, s, h, bps).Fee? && h >= NAV_PRECISION && bps <= MAX_BPS
    ensures s + FeeFor(a, s, h, bps).shares <= a
    ensures FeeFor(a, s, h, bps).hwm >= NAV_PRECISION
  {
    var q := FeeFor(a, s, h, bps);
    FeeFacts(a, s, h, bps);
    MulLe(NAV_PRECISION, h, s);
    FloorAtLeast(h * s, NAV_PRECISION, s);
    FeeWithinYield(a, s, a - TruncDiv(h * s, NAV_PRECISION), bps, q.assets, q.shares);
    FloorAtLeast(a * NAV_PRECISION, s + q.shares, NAV_PRECISION);
  }

  lemma FeeWithinYield(a: nat, s: nat, y: nat, bps: nat, fee: nat, f: nat)
    requires y <= a - s && bps <= MAX_BPS && MAX_BPS * fee <= y * bps
    requires f * (a + VIRTUAL_SHARES_OFFSET) <= fee * (s + VIRTUAL_SHARES_OFFSET)
    ensures f <= fee <= y
  {
    MulLe(bps, MAX_BPS, y);
    MulLe(s + VIRTUAL_SHARES_OFFSET, a + VIRTUAL_SHARES_OFFSET, fee);
    MulCancelLe(f, fee, a + VIRTUAL_SHARES_OFFSET);
  }

  /** What the fee costs the holders.  Taking the fee out as assets would leave at
      least the same price; the minted shares are worth at most the fee; the fee is at
      most its share of the yield above the mark; and a second collection right after
      finds nothing. */
  lemma FeeDilution(a: nat, s: nat, h: nat, bps: nat)
    requires FeeFor(a, s, h, bps).Fee?
    ensures var q := FeeFor(a, s, h, bps);
            && PriceAtLeast(a, s, a - q.assets, s + q.shares)
            && AssetsFor(q.shares, a, s + q.shares) <= q.assets
            && MAX_BPS * q.assets <= bps * (a - TruncDiv(h * s, NAV_PRECISION))
            && FeeFor(a, s + q.shares, q.hwm, bps) == NoFee
  {
    var V := VIRTUAL_SHARES_OFFSET;
    var q := FeeFor(a, s, h, bps);
    FeeFacts(a, s, h, bps);
    DilutionProducts(a + V, s + V, q.assets, q.shares);
    FloorAtMost(q.shares * (a + V), s + q.shares + V, q.assets);
  }

  lemma DilutionProducts(x: nat, y: nat, fee: nat, f: nat)
    requires f * x <= fee * y
    ensures x * y >= (x - fee) * (y + f)
    ensures 0 <= f * x <= fee * (y + f)
  {
  }

  // ------------------------------------------------------------------ the mark never falls ...

  /** If the mark fell, the minted shares would have to be worth more than the yield. */
  lemma FallingMark(a: nat, s: nat, h: nat, bps: nat)
    requires FeeFor(a, s, h, bps).Fee? && FeeFor(a, s, h, bps).hwm < h
    ensures var y := a - TruncDiv(h * s, NAV_PRECISION);
            var f := FeeFor(a, s, h, bps).shares;
            y * (s + f) < a * f + s + f
  {
    var q := FeeFor(a, s, h, bps);
    FeeFacts(a, s, h, bps);
    if h * (s + q.shares) <= a * NAV_PRECISION {
      FloorAtLeast(a * NAV_PRECISION, s + q.shares, h);
    }
    FallingMarkYield(a, s, h, q.shares, a - TruncDiv(h * s, NAV_PRECISION), NAV_PRECISION);
  }

  lemma FallingMarkYield(a: nat, s: nat, h: nat, f: nat, y: nat, p: nat)
    requires s > 0 && f > 0 && p > 0
    requires a * p < h * (s + f)
    requires y * p < a * p - h * s + p
    ensures y * (s + f) < a * f + s + f
  {
  }

  lemma FallingMarkProducts(a: nat, s: nat, h: nat, bps: nat)
    requires FeeFor(a, s, h, bps).Fee? && FeeFor(a, s, h, bps).hwm < h
    requires bps <= MAX_PERFORMANCE_FEE_BPS
    ensures var f := FeeFor(a, s, h, bps).shares;
            && f >= 1 && s >= 1
            && 3 * (s + f) < a * f
            && 10 * (f * (a + VIRTUAL_SHARES_OFFSET) * (s + f)) < 3 * ((s + VIRTUAL_SHARES_OFFSET) * (a * f + s + f))
  {
    var q := FeeFor(a, s, h, bps);
    FeeFacts(a, s, h, bps);
    FallingMark(a, s, h, bps);
    var y := a - TruncDiv(h * s, NAV_PRECISION);
    MulLe(bps, MAX_PERFORMANCE_FEE_BPS, y);
    MulLe(4, y, s + q.shares);
    FeeChain(q.shares * (a + VIRTUAL_SHARES_OFFSET), q.assets, s + VIRTUAL_SHARES_OFFSET, s + q.shares, y,
             a * q.shares + s + q.shares);
  }

  lemma FeeChain(minted: nat, fee: nat, y: nat, t: nat, gain: nat, worth: nat)
    requires y > 0
    requires minted <= fee * y && 10 * fee <= 3 * gain && gain * t < worth
    ensures 10 * (minted * t) < 3 * (y * worth)
  {
    MintedChain(minted, fee, y, t);
    ScaledRate(fee, gain, y * t);
    GainChain(gain, y, t, worth);
  }

  lemma MintedChain(minted: nat, fee: nat, y: nat, t: nat)
    requires minted <= fee * y
    ensures minted * t <= fee * (y * t)
  {
    MulLe(minted, fee * y, t);
    MulAssoc(fee, y, t);
  }

  lemma ScaledRate(fee: nat, gain: nat, c: nat)
    requires 10 * fee <= 3 * gain
    ensures 10 * (fee * c) <= 3 * (gain * c)
  {
    MulLe(10 * fee, 3 * gain, c);
  }

  lemma GainChain(gain: nat, y: nat, t: nat, worth: nat)
    requires y > 0 && gain * t < worth
    ensures gain * (y * t) < y * worth
  {
    MulLt(gain * t, worth, y);
    MulAssoc(gain, t, y);
    assert y * t == t * y;
  }

  /** At any supply of at least 3/7 of the offset (less a unit), collecting fees never
      lowers the mark and never lifts it above the price that was charged. */
  lemma MarkNeverFalls(a: nat, s: nat, h: nat, bps: nat)
    requires FeeFor(a, s, h, bps).Fee? && bps <= MAX_PERFORMANCE_FEE_BPS
    requires 7 * s + 10 >= 3 * VIRTUAL_SHARES_OFFSET
    ensures h <= FeeFor(a, s, h, bps).hwm <= TruncDiv(a * NAV_PRECISION, s)
  {
    var q := FeeFor(a, s, h, bps);
    FeeFacts(a, s, h, bps);
    NewMarkBelowNav(a * NAV_PRECISION, s, q.shares);
    if q.hwm < h { NoFall(a, s, h, bps); }
  }

  /** Spread over more shares, assets give no higher price. */
  lemma NewMarkBelowNav(ap: nat, s: nat, f: nat)
    requires s > 0
    ensures TruncDiv(ap, s + f) <= TruncDiv(ap, s)
  {
    var mark := TruncDiv(ap, s + f);
    FloorBounds(ap, s + f);
    MulLe(s, s + f, mark);
    FloorAtLeast(ap, s, mark);
  }

  lemma NoFall(a: nat, s: nat, h: nat, bps: nat)
    requires FeeFor(a, s, h, bps).Fee? && bps <= MAX_PERFORMANCE_FEE_BPS
    requires 7 * s + 10 >= 3 * VIRTUAL_SHARES_OFFSET
    ensures FeeFor(a, s, h, bps).hwm >= h
  {
    if FeeFor(a, s, h, bps).hwm < h {
      FallingMarkProducts(a, s, h, bps);
      NoFallingMark(a, s, FeeFor(a, s, h, bps).shares);
    }
  }

  lemma NoFallingMark(a: nat, s: nat, f: nat)
    requires f >= 1 && s >= 1 && 3 * (s + f) < a * f
    requires 7 * s + 10 >= 3 * VIRTUAL_SHARES_OFFSET
    ensures 10 * (f * (a + VIRTUAL_SHARES_OFFSET) * (s + f)) >= 3 * ((s + VIRTUAL_SHARES_OFFSET) * (a * f + s + f))
  {
    MulLe(0, a, f);
    FallExpanded(a, s, f);
    var worth := a * f + s + f;
    if s < VIRTUAL_SHARES_OFFSET {
      SmallSupply(a * f, f * VIRTUAL_SHARES_OFFSET, s, f);
      ScaleFactor(3, s + VIRTUAL_SHARES_OFFSET, 10, s + 1, worth);
    } else {
      LargeSupply(a * f, f * VIRTUAL_SHARES_OFFSET, s, f);
      ScaleFactor(3, s + VIRTUAL_SHARES_OFFSET, 6, s, worth);
    }
  }

  lemma FallExpanded(a: nat, s: nat, f: nat)
    ensures f * (a + VIRTUAL_SHARES_OFFSET) * (s + f)
            == (a * f) * s + (a * f) * f + (f * VIRTUAL_SHARES_OFFSET) * s + (f * VIRTUAL_SHARES_OFFSET) * f
  {
  }

  lemma ScaleFactor(p: nat, c: nat, q: nat, d: nat, right: nat)
    requires p * c <= q * d
    ensures p * (c * right) <= q * (d * right)
  {
    MulLe(p * c, q * d, right);
    MulAssoc(p, c, right);
    MulAssoc(q, d, right);
  }

  lemma LargeSupply(af: nat, fv: nat, s: nat, f: nat)
    requires 3 * (s + f) < af
    ensures 6 * (s * (af + s + f)) <= 10 * (af * s + af * f + fv * s + fv * f)
  {
    MulLe(0, af, f);
    MulLe(0, fv, f);
    MulLe(0, fv, s);
    MulLe(3 * (s + f), af, s);
    assert s * (af + s + f) == af * s + (s + f) * s;
  }

  lemma SmallSupply(af: nat, fv: nat, s: nat, f: nat)
    requires f >= 1 && s + 1 <= VIRTUAL_SHARES_OFFSET && fv == f * VIRTUAL_SHARES_OFFSET
    ensures (s + 1) * (af + s + f) <= af * s + af * f + fv * s + fv * f
  {
    assert (s + 1) * (af + s + f) == af * s + af + (s + 1) * s + (s + 1) * f;
    MulLe(1, f, af);
    assert f * af == af * f;
    MulLe(1, f, VIRTUAL_SHARES_OFFSET);
    MulLe(s + 1, fv, s);
    MulLe(s + 1, fv, f);
  }

  // ------------------------------------------------------------------ ... and where it can

  /** A collection from these numbers, if it mints at all, does not lower the mark. */
  predicate KeepsMark(a: nat, s: nat, h: nat, bps: nat) {
    var q := FeeFor(a, s, h, bps);
    q.Fee? ==> q.hwm >= h
  }

  /** The assets that put the price just below one share's worth above the mark. */
  function JustAbove(s: nat, h: nat): int {
    TruncDiv(h * s, NAV_PRECISION) + TruncDiv(h - 1, NAV_PRECISION)
  }

  /** Marks high enough, in whole units, for a share's worth to pay for a fee share. */
  predicate HighMark(s: nat, h: int) {
    h >= (20 * (s + VIRTUAL_SHARES_OFFSET) + 1) * NAV_PRECISION
  }

  /** Below that supply any high mark is lowered by a collection at some assets. */
  lemma MarkCanFall(s: nat, h: nat)
    requires s > 0 && 7 * s + 10 < 3 * VIRTUAL_SHARES_OFFSET && HighMark(s, h)
    ensures JustAbove(s, h) >= s + VIRTUAL_SHARES_OFFSET
    ensures !KeepsMark(JustAbove(s, h), s, h, MAX_PERFORMANCE_FEE_BPS)
  {
    var u, y := TruncDiv(h * s, NAV_PRECISION), TruncDiv(h - 1, NAV_PRECISION);
    MulLe(0, h, s);
    FloorBounds(h * s, NAV_PRECISION);
    FloorBounds(h - 1, NAV_PRECISION);
    MarkInUnits(s, h, u, y);
    FallingFee(s, u, y);
    FallingNumbers(s, h, u, y, SharesFor(TruncDiv(y * MAX_PERFORMANCE_FEE_BPS, MAX_BPS), u + y, s));
  }

  /** With `u` units behind the supply at the mark and `y` to a share. */
  lemma MarkInUnits(s: nat, h: nat, u: nat, y: nat)
    requires s > 0 && HighMark(s, h)
    requires u * NAV_PRECISION <= h * s && y * NAV_PRECISION <= h - 1 < y * NAV_PRECISION + NAV_PRECISION
    ensures y >= 20 * (s + VIRTUAL_SHARES_OFFSET) && u <= (y + 1) * s
  {
    MulLe(h, (y + 1) * NAV_PRECISION, s);
    assert (y + 1) * NAV_PRECISION * s == ((y + 1) * s) * NAV_PRECISION;
  }

  /** The fee on `y` buys at least one share. */
  lemma FallingFee(s: nat, u: nat, y: nat)
    requires s > 0 && 7 * s + 10 < 3 * VIRTUAL_SHARES_OFFSET
    requires y >= 20 * (s + VIRTUAL_SHARES_OFFSET) && u <= (y + 1) * s
    ensures SharesFor(TruncDiv(y * MAX_PERFORMANCE_FEE_BPS, MAX_BPS), u + y, s) >= 1
  {
    var fee, k := TruncDiv(y * MAX_PERFORMANCE_FEE_BPS, MAX_BPS), s + VIRTUAL_SHARES_OFFSET;
    FloorBounds(y * MAX_PERFORMANCE_FEE_BPS, MAX_BPS);
    FeeBuysShare(s, y, fee, k);
    FloorAtLeast(fee * k, u + y + VIRTUAL_SHARES_OFFSET, 1);
  }

  lemma FeeBuysShare(s: nat, y: nat, fee: nat, k: nat)
    requires 7 * s + 10 < 3 * VIRTUAL_SHARES_OFFSET && k == s + VIRTUAL_SHARES_OFFSET && y >= 20 * k
    requires 3 * y < 10 * fee + 10
    ensures (y + 1) * s + y + VIRTUAL_SHARES_OFFSET <= fee * k
  {
    MulLe(3 * y - 9, 10 * fee, k);
    MulLe(1, 3 * k - 10 * s - 10, y);
    assert y * (3 * k - 10 * s - 10) == 3 * (y * k) - 10 * (y * s) - 10 * y;
    assert (y + 1) * s == y * s + s;
    assert (3 * y - 9) * k == 3 * (y * k) - 9 * k;
  }

  /** So the price passes the mark, and one more share or more takes it back below. */
  lemma FallingNumbers(s: nat, h: nat, u: nat, y: nat, f: nat)
    requires s > 0 && f >= 1 && y >= 20 * (s + VIRTUAL_SHARES_OFFSET)
    requires u * NAV_PRECISION <= h * s < u * NAV_PRECISION + NAV_PRECISION && y * NAV_PRECISION <= h - 1
    ensures TruncDiv((u + y) * NAV_PRECISION, s) > h
    ensures TruncDiv((u + y) * NAV_PRECISION, s + f) < h
  {
    assert (h + 1) * s == h * s + s;
    FloorAtLeast((u + y) * NAV_PRECISION, s, h + 1);
    MulLe(1, f, h);
    assert h * (s + f) == h * s + h * f;
    assert (h - 1) * (s + f) + (s + f) == h * (s + f);
    FloorAtMost((u + y) * NAV_PRECISION, s + f, h - 1);
  }

  /** A high mark from a first collection, at assets of a hundred times the square of the
      offset supply. */
  lemma HighFirstMark(s: nat, k: nat, a: nat)
    requires s > 0 && k == s + VIRTUAL_SHARES_OFFSET && a == 100 * (k * k)
    ensures var q := FeeFor(a, s, NAV_PRECISION, MAX_PERFORMANCE_FEE_BPS);
            q.Fee? && 1 <= q.shares <= k && HighMark(s, q.hwm)
  {
    hide SharesFor;
    MulLe(1_000_000, k, k);
    FirstPrice(a, s);
    var fee := TruncDiv((a - s) * MAX_PERFORMANCE_FEE_BPS, MAX_BPS);
    FirstFee(s, k, k * k, fee);
    FirstShares(s, k, k * k, fee);
    FirstMark(s, k, k * k, SharesFor(fee, a, s));
  }

  lemma FirstPrice(a: nat, s: nat)
    requires s > 0 && a >= 2 * s
    ensures TruncDiv(a * NAV_PRECISION, s) > NAV_PRECISION
    ensures TruncDiv(NAV_PRECISION * s, NAV_PRECISION) == s
  {
    NavAboveMarkIff(a * NAV_PRECISION, s, NAV_PRECISION);
    FloorUnique(NAV_PRECISION * s, NAV_PRECISION, s);
  }

  lemma FirstFee(s: nat, k: nat, kk: nat, fee: int)
    requires k == s + VIRTUAL_SHARES_OFFSET && kk >= 1_000_000 * k
    requires fee == TruncDiv((100 * kk - s) * MAX_PERFORMANCE_FEE_BPS, MAX_BPS)
    ensures 28 * kk <= fee <= 100 * kk
  {
    FloorBounds((100 * kk - s) * MAX_PERFORMANCE_FEE_BPS, MAX_BPS);
  }

  lemma FirstShares(s: nat, k: nat, kk: nat, fee: nat)
    requires k == s + VIRTUAL_SHARES_OFFSET && kk >= 1_000_000 * k && 28 * kk <= fee <= 100 * kk
    ensures 1 <= SharesFor(fee, 100 * kk, s) <= k
  {
    var x := 100 * kk + VIRTUAL_SHARES_OFFSET;
    MulLe(28 * kk, fee, k);
    MulLe(4, k, 28 * kk);
    FloorAtLeast(fee * k, x, 1);
    MulLe(fee, x, k);
    SharesForBounds(fee, 100 * kk, s);
    MulCancelLe(SharesFor(fee, 100 * kk, s), k, x);
  }

  lemma FirstMark(s: nat, k: nat, kk: nat, f: nat)
    requires s > 0 && k == s + VIRTUAL_SHARES_OFFSET && kk == k * k && f <= k
    ensures HighMark(s, TruncDiv(100 * kk * NAV_PRECISION, s + f))
  {
    MulLe(s + f, 2 * k, 20 * k + 1);
    MulLe(1, k, k);
    assert (2 * k) * (20 * k + 1) == 40 * kk + 2 * k;
    assert (20 * k + 1) * NAV_PRECISION * (s + f) == ((s + f) * (20 * k + 1)) * NAV_PRECISION;
    FloorAtLeast(100 * kk * NAV_PRECISION, s + f, (20 * k + 1) * NAV_PRECISION);
  }

  /** Exactly which supplies make the mark monotone, whatever the assets, the mark and
      the (permitted) fee rate. */
  lemma MarkMonotoneIff(s: nat)
    requires s > 0
    ensures (forall a: nat, h: nat, bps: nat :: bps <= MAX_PERFORMANCE_FEE_BPS ==> KeepsMark(a, s, h, bps))
            <==> 7 * s + 10 >= 3 * VIRTUAL_SHARES_OFFSET
  {
    if 7 * s + 10 >= 3 * VIRTUAL_SHARES_OFFSET {
      forall a: nat, h: nat, bps: nat | bps <= MAX_PERFORMANCE_FEE_BPS ensures KeepsMark(a, s, h, bps) {
        if FeeFor(a, s, h, bps).Fee? { MarkNeverFalls(a, s, h, bps); }
      }
    } else {
      MarkCanFall(s, (20 * (s + VIRTUAL_SHARES_OFFSET) + 1) * NAV_PRECISION);
    }
  }

  // ------------------------------------------------------------------ redemptions and the mark

  /** A redemption never lowers assets per share, and lifts them exactly when there is a
      profit: the offset keeps part of it from the redeemed shares. */
  lemma RedemptionLiftsNavIff(shares: nat, a: nat, s: nat)
    requires 0 < shares <= s <= a
    ensures var r := AssetsFor(shares, a, s);
            && a * (s - shares) <= (a - r) * s
            && (a * (s - shares) < (a - r) * s <==> s < a)
  {
    var r := AssetsFor(shares, a, s);
    AssetsForBounds(shares, a, s);
    LiftProducts(shares, a, s, r);
    if a == s { RedeemStep(shares, a, s); }
  }

  lemma LiftProducts(shares: nat, a: nat, s: nat, r: nat)
    requires 0 < shares <= s <= a
    requires r * (s + VIRTUAL_SHARES_OFFSET) <= shares * (a + VIRTUAL_SHARES_OFFSET)
    ensures r * s <= a * shares
    ensures s < a ==> r * s < a * shares
    ensures a * (s - shares) == a * s - a * shares && (a - r) * s == a * s - r * s
  {
    assert r * (s + VIRTUAL_SHARES_OFFSET) == r * s + r * VIRTUAL_SHARES_OFFSET;
    assert shares * (a + VIRTUAL_SHARES_OFFSET) == a * shares + shares * VIRTUAL_SHARES_OFFSET;
    if r <= shares {
      MulLe(r, shares, s);
      if s < a { MulLt(s, a, shares); } else { MulLe(s, a, shares); }
    }
  }

  /** The yield that a redemption makes appear above a mark at which nothing was due: no
      more than the redeemed shares' part of the offset's share of the profit, and the
      rounding of three divisions.  A fee is due on it exactly when the remaining assets
      cover the remaining shares at one step above the mark. */
  lemma PhantomYield(shares: nat, a: nat, s: nat, h: nat)
    requires 0 < shares < s <= a && TruncDiv(a * NAV_PRECISION, s) <= h
    ensures var r := AssetsFor(shares, a, s);
            var y := a - r - TruncDiv(h * (s - shares), NAV_PRECISION);
            && (y - 2) * (s * (s + VIRTUAL_SHARES_OFFSET)) * NAV_PRECISION
               < VIRTUAL_SHARES_OFFSET * (shares * (a - s)) * NAV_PRECISION
                 + (s - shares) * (s * (s + VIRTUAL_SHARES_OFFSET))
            && (TruncDiv((a - r) * NAV_PRECISION, s - shares) > h
                <==> (h + 1) * (s - shares) <= (a - r) * NAV_PRECISION)
  {
    var r, t := AssetsFor(shares, a, s), s - shares;
    AssetsForBounds(shares, a, s);
    RedeemStep(shares, a, s);
    NavAboveMarkIff(a * NAV_PRECISION, s, h);
    NavAboveMarkIff((a - r) * NAV_PRECISION, t, h);
    MulLe(0, h, t);
    FloorBounds(h * t, NAV_PRECISION);
    YieldProducts(shares, a, s, h, r, TruncDiv(h * t, NAV_PRECISION));
  }

  lemma NavAboveMarkIff(ap: nat, s: nat, h: nat)
    requires s > 0
    ensures TruncDiv(ap, s) > h <==> (h + 1) * s <= ap
  {
    FloorBounds(ap, s);
    if TruncDiv(ap, s) > h {
      MulLe(h + 1, TruncDiv(ap, s), s);
    } else {
      MulLe(TruncDiv(ap, s), h, s);
      assert (h + 1) * s == h * s + s;
    }
  }

  /** What is left after the payment, less the floor of the mark's worth, in products. */
  lemma YieldProducts(shares: nat, a: nat, s: nat, h: nat, r: nat, u: nat)
    requires 0 < shares < s <= a && a * NAV_PRECISION < (h + 1) * s
    requires shares * (a + VIRTUAL_SHARES_OFFSET) < r * (s + VIRTUAL_SHARES_OFFSET) + s + VIRTUAL_SHARES_OFFSET
    requires h * (s - shares) < u * NAV_PRECISION + NAV_PRECISION
    ensures (a - r - u - 2) * (s * (s + VIRTUAL_SHARES_OFFSET)) * NAV_PRECISION
            < VIRTUAL_SHARES_OFFSET * (shares * (a - s)) * NAV_PRECISION
              + (s - shares) * (s * (s + VIRTUAL_SHARES_OFFSET))
  {
    var P, t, z := NAV_PRECISION, s - shares, s + VIRTUAL_SHARES_OFFSET;
    // (a - r - u - 1) * s * P < ((a - r) * s - a * t) * P + s * t
    MarkWorth(a - r, a, s, t, h, u);
    // ((a - r) * s - a * t) * z < V * shares * (a - s) + s * z
    KeptBack(shares, a, s, r);
    var kept := (a - r) * s - a * t;
    JoinYield((a - r - u) * s, kept, VIRTUAL_SHARES_OFFSET * (shares * (a - s)), s, t, z);
    YieldForm(a - r - u, s, z, t);
  }

  lemma MarkWorth(left: int, a: nat, s: nat, t: nat, h: nat, u: nat)
    requires a * NAV_PRECISION < (h + 1) * s && h * t < u * NAV_PRECISION + NAV_PRECISION && t > 0 && s > 0
    ensures ((left - u) * s) * NAV_PRECISION < (left * s - a * t) * NAV_PRECISION + s * t + s * NAV_PRECISION
  {
    var P := NAV_PRECISION;
    MulLt(h * t, u * P + P, s);
    MulLt(a * P, (h + 1) * s, t);
    assert (h + 1) * s * t == (h * t) * s + s * t;
    assert (u * P + P) * s == (u * s) * P + s * P;
    assert (a * P) * t == (a * t) * P;
    assert (left - u) * s == left * s - u * s;
  }

  /** What the rounding and the offset keep back from the redeemed shares. */
  lemma KeptBack(shares: nat, a: nat, s: nat, r: nat)
    requires 0 < shares <= s <= a
    requires shares * (a + VIRTUAL_SHARES_OFFSET) < r * (s + VIRTUAL_SHARES_OFFSET) + s + VIRTUAL_SHARES_OFFSET
    ensures ((a - r) * s - a * (s - shares)) * (s + VIRTUAL_SHARES_OFFSET)
            < VIRTUAL_SHARES_OFFSET * (shares * (a - s)) + s * (s + VIRTUAL_SHARES_OFFSET)
  {
    var z, sold := s + VIRTUAL_SHARES_OFFSET, a * shares;
    PaidScaled(shares, a, s, sold, r * z, z);
    MulSwap(r, s, z);
    KeptProduct(shares, a, s, r, z);
    KeptSum(sold * z, sold * s, sold, (r * s) * z, shares * s, s * z);
    PartProduct(shares, a, s);
  }

  lemma KeptProduct(shares: int, a: int, s: int, r: int, z: int)
    ensures ((a - r) * s - a * (s - shares)) * z == (a * shares) * z - (r * s) * z
  {
    assert (a - r) * s - a * (s - shares) == a * shares - r * s;
  }

  lemma KeptSum(soldZ: int, soldS: int, sold: int, paidZ: int, mine: int, sz: int)
    requires soldZ == soldS + sold * VIRTUAL_SHARES_OFFSET
    requires soldS + mine * VIRTUAL_SHARES_OFFSET < paidZ + sz
    ensures soldZ - paidZ < VIRTUAL_SHARES_OFFSET * (sold - mine) + sz
  {
  }

  lemma PartProduct(shares: int, a: int, s: int)
    ensures shares * (a - s) == a * shares - shares * s
  {
  }

  lemma PaidScaled(shares: nat, a: nat, s: nat, sold: nat, rz: nat, z: nat)
    requires s > 0 && sold == a * shares
    requires shares * (a + VIRTUAL_SHARES_OFFSET) < rz + z
    ensures sold * s + (shares * s) * VIRTUAL_SHARES_OFFSET < rz * s + s * z
  {
    assert shares * (a + VIRTUAL_SHARES_OFFSET) == sold + shares * VIRTUAL_SHARES_OFFSET;
    MulLt(sold + shares * VIRTUAL_SHARES_OFFSET, rz + z, s);
  }

  lemma JoinYield(worth: int, kept: int, part: int, s: nat, t: nat, z: nat)
    requires z > 0 && worth * NAV_PRECISION < kept * NAV_PRECISION + s * t + s * NAV_PRECISION
    requires kept * z < part + s * z
    ensures (worth * z) * NAV_PRECISION < part * NAV_PRECISION + (s * t) * z + 2 * (s * z) * NAV_PRECISION
  {
    var P := NAV_PRECISION;
    MulLt(worth * P, kept * P + s * t + s * P, z);
    assert (worth * P) * z == (worth * z) * P;
    assert (kept * P + s * t + s * P) * z == (kept * z) * P + (s * t) * z + (s * z) * P;
  }

  lemma YieldForm(y: int, s: nat, z: nat, t: nat)
    ensures (y - 2) * (s * z) * NAV_PRECISION == ((y * s) * z) * NAV_PRECISION - 2 * (s * z) * NAV_PRECISION
    ensures t * (s * z) == (s * t) * z
  {
    assert (y - 2) * (s * z) == (y * s) * z - 2 * (s * z);
  }
}
