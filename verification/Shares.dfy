/** Share pricing of the vault as a function of total assets A and total supply S.
    With x = A + offset and y = S + offset, the price of a share is x / y; every
    comparison of prices below is written cross-multiplied. */
module Shares {
  import opened Arith

  const VIRTUAL_SHARES_OFFSET := 1_000_000
  const NAV_PRECISION := 10_000_000
  const MAX_BPS := 10_000
  const MAX_PERFORMANCE_FEE_BPS := 3_000
  const MAX_IDLE_BUFFER_BPS := 2_000

  /** Shares minted for `assets`; total assets are never negative. */
  function SharesFor(assets: int, totalAssets: nat, totalSupply: int): int {
    TruncDiv(assets * (totalSupply + VIRTUAL_SHARES_OFFSET), totalAssets + VIRTUAL_SHARES_OFFSET)
  }

  /** Assets paid for `shares`. */
  function AssetsFor(shares: int, totalAssets: nat, totalSupply: int): int
    requires totalSupply + VIRTUAL_SHARES_OFFSET != 0
  {
    TruncDiv(shares * (totalAssets + VIRTUAL_SHARES_OFFSET), totalSupply + VIRTUAL_SHARES_OFFSET)
  }

  /** The price of a share at (a2, s2) is at least the price at (a1, s1). */
  ghost predicate PriceAtLeast(a2: int, s2: int, a1: int, s1: int) {
    (a2 + VIRTUAL_SHARES_OFFSET) * (s1 + VIRTUAL_SHARES_OFFSET)
    >= (a1 + VIRTUAL_SHARES_OFFSET) * (s2 + VIRTUAL_SHARES_OFFSET)
  }

  lemma PriceTransitive(a3: int, s3: nat, a2: int, s2: nat, a1: int, s1: nat)
    requires PriceAtLeast(a3, s3, a2, s2) && PriceAtLeast(a2, s2, a1, s1)
    ensures PriceAtLeast(a3, s3, a1, s1)
  {
  }

  /** More assets at the same supply never lower the price. */
  lemma PriceGrowsWithAssets(a2: int, a1: int, s: nat)
    requires a1 <= a2
    ensures PriceAtLeast(a2, s, a1, s)
  {
  }

  lemma SharesForBounds(assets: nat, a: nat, s: nat)
    ensures var m := SharesFor(assets, a, s);
            && m >= 0
            && m * (a + VIRTUAL_SHARES_OFFSET) <= assets * (s + VIRTUAL_SHARES_OFFSET)
            && assets * (s + VIRTUAL_SHARES_OFFSET) < m * (a + VIRTUAL_SHARES_OFFSET) + a + VIRTUAL_SHARES_OFFSET
  {
    MulLe(0, assets, s + VIRTUAL_SHARES_OFFSET);
    FloorBounds(assets * (s + VIRTUAL_SHARES_OFFSET), a + VIRTUAL_SHARES_OFFSET);
  }

  lemma AssetsForBounds(shares: nat, a: nat, s: nat)
    ensures var r := AssetsFor(shares, a, s);
            && r >= 0
            && r * (s + VIRTUAL_SHARES_OFFSET) <= shares * (a + VIRTUAL_SHARES_OFFSET)
            && shares * (a + VIRTUAL_SHARES_OFFSET) < r * (s + VIRTUAL_SHARES_OFFSET) + s + VIRTUAL_SHARES_OFFSET
  {
    MulLe(0, shares, a + VIRTUAL_SHARES_OFFSET);
    FloorBounds(shares * (a + VIRTUAL_SHARES_OFFSET), s + VIRTUAL_SHARES_OFFSET);
  }

  // ------------------------------------------------------------------ single steps

  /** A deposit keeps every holder's price and keeps supply covered by assets. */
  lemma DepositStep(assets: nat, a: nat, s: nat)
    ensures var m := SharesFor(assets, a, s);
            && PriceAtLeast(a + assets, s + m, a, s)
            && (s <= a ==> m <= assets)
  {
  }

  /** A redemption keeps the price of the remaining shares; with supply covered by
      assets it pays at least one asset per share, never more than the vault owns,
      and keeps the remaining supply covered. */
  lemma RedeemStep(shares: nat, a: nat, s: nat)
    requires shares <= s
    ensures var r := AssetsFor(shares, a, s);
            && PriceAtLeast(a - r, s - shares, a, s)
            && (s <= a ==> shares <= r <= a && s - shares <= a - r)
  {
    AssetsForBounds(shares, a, s);
    var V := VIRTUAL_SHARES_OFFSET;
    var x, y, r := a + V, s + V, AssetsFor(shares, a, s);
    assert (x - r) * y == x * y - r * y;
    assert x * (y - shares) == x * y - shares * x;
    if s <= a {
      MulLe(y, x, shares);
      FloorAtLeast(shares * x, y, shares);
      // r - shares <= (a - s) * shares / y <= a - s
      assert shares * x == shares * y + shares * (x - y);
      MulLe(shares, y, x - y);
      assert (r - shares) * y <= (x - y) * y by {
        assert (r - shares) * y == r * y - shares * y;
        assert shares * (x - y) <= y * (x - y);
        assert y * (x - y) == (x - y) * y;
      }
      MulCancelLe(r - shares, x - y, y);
    }
  }

  // ------------------------------------------------------------------ deposit, then redeem

  /** What an immediate round trip costs.  The loss is never negative and is bounded
      by one unit plus one share's worth of assets; there is no loss exactly when the
      price divides the deposit. */
  lemma RoundTrip(assets: nat, a: nat, s: nat)
    requires SharesFor(assets, a, s) > 0
    ensures var V := VIRTUAL_SHARES_OFFSET;
            var m := SharesFor(assets, a, s);
            var r := AssetsFor(m, a + assets, s + m);
            && r <= assets
            && (assets - r - 1) * (s + m + V) < a + V
            && (r == assets <==> (assets * (s + V)) % (a + V) == 0)
  {
    var V := VIRTUAL_SHARES_OFFSET;
    var x, y := a + V, s + V;
    var m := SharesFor(assets, a, s);
    SharesForBounds(assets, a, s);
    AssetsForBounds(m, a + assets, s + m);
    RoundTripProducts(assets, x, y, m, AssetsFor(m, a + assets, s + m));
    MulLe(0, assets, y);
    DivisibleIffExact(assets * y, x);
    if m * x == assets * y {
      FloorUnique(m * (x + assets), y + m, assets);
    }
  }

  lemma RoundTripProducts(assets: nat, x: int, y: int, m: nat, r: nat)
    requires x > 0 && y > 0 && m * x <= assets * y < m * x + x
    requires r * (y + m) <= m * (x + assets) < r * (y + m) + y + m
    ensures r <= assets
    ensures (assets - r - 1) * (y + m) < x
    ensures 0 <= m * (x + assets)
    ensures m * x == assets * y ==> assets * (y + m) == m * (x + assets)
    ensures r == assets ==> m * x == assets * y
  {
    var z := y + m;
    assert m * (x + assets) == m * x + m * assets;
    assert assets * z == assets * y + assets * m;
    MulCancelLe(r, assets, z);
    LossProduct(assets, r, z);
  }

  lemma LossProduct(assets: int, r: int, z: int)
    ensures (assets - r - 1) * z == assets * z - r * z - z
  {
  }

  lemma DivisibleIffExact(n: int, d: int)
    requires n >= 0 && d > 0
    ensures n % d == 0 <==> TruncDiv(n, d) * d == n
  {
  }

  /** Equal assets and supply are enough for a free round trip ... */
  lemma RoundTripFreeAtPar(assets: nat, a: nat)
    requires assets > 0
    ensures SharesFor(assets, a, a) == assets
    ensures AssetsFor(assets, a + assets, a + assets) == assets
  {
    var x := a + VIRTUAL_SHARES_OFFSET;
    MulLe(0, assets, x);
    FloorUnique(assets * x, x, assets);
    MulLe(0, assets, x + assets);
    FloorUnique(assets * (x + assets), x + assets, assets);
  }

  /** ... but not necessary: at twice the price, a deposit of two buys one share that
      redeems for two. */
  lemma RoundTripFreeOffPar()
    ensures SharesFor(2, 3_000_000, 1_000_000) == 1
    ensures AssetsFor(1, 3_000_002, 1_000_001) == 2
  {
  }

  // ------------------------------------------------------------------ donation

  /** Total assets and supply after deposits made one after the other. */
  function AfterDeposits(a: nat, s: nat, deposits: seq<nat>): (nat, nat)
    decreases |deposits|
  {
    if deposits == [] then (a, s) else
    SharesForBounds(deposits[0], a, s);
    AfterDeposits(a + deposits[0], s + SharesFor(deposits[0], a, s), deposits[1..])
  }

  /** Each of the deposits is large enough to be accepted. */
  ghost predicate AllMint(a: nat, s: nat, deposits: seq<nat>)
    decreases |deposits|
  {
    deposits == [] ||
    (SharesFor(deposits[0], a, s) > 0
     && AllMint(a + deposits[0], s + SharesFor(deposits[0], a, s), deposits[1..]))
  }

  /** After `i` deposits that started at the price x / y, the price xi / yi is behind the
      product of what one rounding each can add. */
  ghost predicate Behind(xi: int, yi: int, i: nat, x: int, y: int) {
    && yi >= y + i
    && xi * (y * (y + 1)) <= (yi + 1) * (x * (y + i))
    && (i > 0 ==> xi * (y * (y + 1)) < (yi + 1) * (x * (y + i)))
  }

  lemma OneMoreDeposit(xi: int, yi: int, d: nat, m: nat, i: nat, x: int, y: int)
    requires x > 0 && y > 0 && xi > 0 && m > 0 && Behind(xi, yi, i, x, y)
    requires d * yi < m * xi + xi
    ensures Behind(xi + d, yi + m, i + 1, x, y)
  {
    var c, q, q1 := y * (y + 1), x * (y + i), x * (y + i + 1);
    var xi', yi' := xi + d, yi + m;
    MulLt(0, y + 1, y);
    PriceAfter(xi, yi, d, m);
    // xi' * yi * c < xi * (yi' + 1) * c <= (yi' + 1) * (yi + 1) * q <= (yi' + 1) * yi * q1
    MulLt(xi' * yi, xi * (yi' + 1), c);
    ScaledBound(xi, c, (yi + 1) * q, yi' + 1);
    RoundingFactor(yi, y + i, x);
    MulLe((yi + 1) * q, yi * q1, yi' + 1);
    CancelFactor(xi', yi, c, yi' + 1, q1);
  }

  lemma PriceAfter(xi: int, yi: int, d: int, m: int)
    requires d * yi < m * xi + xi
    ensures (xi + d) * yi < xi * (yi + m + 1)
  {
  }

  lemma ScaledBound(xi: int, c: int, bound: int, z: int)
    requires xi * c <= bound && z >= 0
    ensures (xi * z) * c <= bound * z
  {
    MulLe(xi * c, bound, z);
    MulSwap(xi, c, z);
  }

  lemma MulSwap(a: int, b: int, c: int)
    ensures (a * b) * c == (a * c) * b
  {
  }

  /** With yi at least j, (yi + 1) / yi is at most (j + 1) / j. */
  lemma RoundingFactor(yi: int, j: int, x: int)
    requires yi >= j && x >= 0
    ensures (yi + 1) * (x * j) <= yi * (x * (j + 1))
  {
    MulLe(j, yi, x);
    assert (yi + 1) * (x * j) == yi * (x * j) + x * j;
    assert yi * (x * (j + 1)) == yi * (x * j) + yi * x;
  }

  lemma CancelFactor(xi: int, yi: int, c: int, z: int, q: int)
    requires yi > 0 && (xi * yi) * c < (yi * q) * z
    ensures xi * c < z * q
  {
    MulSwap(xi, yi, c);
    assert (yi * q) * z == (z * q) * yi;
    MulCancelLt(xi * c, z * q, yi);
  }

  lemma {:induction false} DepositsStayBehind(a: nat, s: nat, deposits: seq<nat>, i: nat, x: int, y: int)
    requires x > 0 && y > 0 && AllMint(a, s, deposits)
    requires Behind(a + VIRTUAL_SHARES_OFFSET, s + VIRTUAL_SHARES_OFFSET, i, x, y)
    ensures var (a', s') := AfterDeposits(a, s, deposits);
            Behind(a' + VIRTUAL_SHARES_OFFSET, s' + VIRTUAL_SHARES_OFFSET, i + |deposits|, x, y)
    decreases |deposits|
  {
    hide SharesFor, Behind;
    if deposits != [] {
      var d, m := deposits[0], SharesFor(deposits[0], a, s);
      SharesForBounds(d, a, s);
      OneMoreDeposit(a + VIRTUAL_SHARES_OFFSET, s + VIRTUAL_SHARES_OFFSET, d, m, i, x, y);
      DepositsStayBehind(a + d, s + m, deposits[1..], i + 1, x, y);
    }
  }

  /** The first depositor of an empty vault who then donates gets at most one unit for
      every later deposit after the first out of their roundings -- for as many deposits
      as the offset counts. */
  lemma DonationPaysAtMostOneEach(first: nat, donation: nat, deposits: seq<nat>)
    requires first > 0 && 0 < |deposits| <= VIRTUAL_SHARES_OFFSET
    requires AllMint(first + donation, first, deposits)
    ensures var (a, s) := AfterDeposits(first + donation, first, deposits);
            AssetsFor(first, a, s) <= first + donation + |deposits| - 1
  {
    hide AllMint, AfterDeposits;
    var n := |deposits|;
    var x, y := first + donation + VIRTUAL_SHARES_OFFSET, first + VIRTUAL_SHARES_OFFSET;
    assert Behind(x, y, 0, x, y) by { assert x * (y * (y + 1)) == (y + 1) * (x * y); }
    DepositsStayBehind(first + donation, first, deposits, 0, x, y);
    var (a, s) := AfterDeposits(first + donation, first, deposits);
    DonorQuote(first, donation, n, a + VIRTUAL_SHARES_OFFSET, s + VIRTUAL_SHARES_OFFSET, x, y);
    MulLe(0, first, a + VIRTUAL_SHARES_OFFSET);
    FloorAtMost(first * (a + VIRTUAL_SHARES_OFFSET), s + VIRTUAL_SHARES_OFFSET, first + donation + n - 1);
  }

  lemma DonorQuote(first: nat, donation: nat, n: nat, xi: int, yi: int, x: int, y: int)
    requires first > 0 && 0 < n <= VIRTUAL_SHARES_OFFSET && yi > 0 && Behind(xi, yi, n, x, y)
    requires x == first + donation + VIRTUAL_SHARES_OFFSET && y == first + VIRTUAL_SHARES_OFFSET
    ensures first * xi < (first + donation + n - 1) * yi + yi
  {
    var c, q := y * (y + 1), x * (y + n + 1);
    var k := first + donation + n;
    MulLt(0, y + 1, y);
    RoundingFactor(yi, y + n, x);
    assert xi * c < yi * q;
    MulLt(xi * c, yi * q, first);
    DonorMargin(first, donation, n, x, y);
    MulLe(first * q, k * c, yi);
    MulSwap(xi, c, first);
    MulSwap(yi, q, first);
    FactorOut(first, xi, k, yi, c, q);
    assert k * yi == (k - 1) * yi + yi;
  }

  lemma FactorOut(first: int, xi: int, k: int, yi: int, c: int, q: int)
    requires c > 0 && (xi * first) * c < (yi * first) * q && (first * q) * yi <= (k * c) * yi
    ensures first * xi < k * yi
  {
    assert (yi * first) * q == (first * q) * yi;
    assert (k * c) * yi == (k * yi) * c;
    MulCancelLt(xi * first, k * yi, c);
  }

  /** The room that the offset leaves. */
  lemma DonorMargin(first: nat, donation: nat, n: nat, x: int, y: int)
    requires n <= VIRTUAL_SHARES_OFFSET
    requires x == first + donation + VIRTUAL_SHARES_OFFSET && y == first + VIRTUAL_SHARES_OFFSET
    ensures first * (x * (y + n + 1)) <= (first + donation + n) * (y * (y + 1))
  {
    var V := VIRTUAL_SHARES_OFFSET;
    MarginIdentity(y, donation, n);
    MulLe(n, V, donation);
    MulLe(0, n + n * V + donation * (V - n), y);
    MulLe(0, donation, n + 1);
  }

  lemma MarginIdentity(y: int, donation: int, n: int)
    ensures var V := VIRTUAL_SHARES_OFFSET;
            (y - V + donation + n) * (y * (y + 1)) - (y - V) * ((y + donation) * (y + n + 1))
            == (n + n * V + donation * (V - n)) * y + V * (donation * (n + 1))
  {
  }

  /** In particular the rounding of a single later deposit never pays the donor. */
  lemma DonationNeverPays(first: nat, donation: nat, later: nat)
    requires first > 0
    requires SharesFor(later, first + donation, SharesFor(first, 0, 0)) > 0
    ensures SharesFor(first, 0, 0) == first
    ensures var m := SharesFor(later, first + donation, first);
            AssetsFor(first, first + donation + later, first + m) <= first + donation
  {
    RoundTripFreeAtPar(first, 0);
    DonationPaysAtMostOneEach(first, donation, [later]);
  }

  /** Two can: a donation of one, then two deposits of two that mint one share each, and
      the first depositor is paid more than was put in. */
  lemma DonorCanGain()
    ensures AllMint(1_000_000_001, 1_000_000_000, [2, 2])
    ensures AfterDeposits(1_000_000_001, 1_000_000_000, [2, 2]) == (1_000_000_005, 1_000_000_002)
    ensures AssetsFor(1_000_000_000, 1_000_000_005, 1_000_000_002) == 1_000_000_000 + 1 + 1
  {
    assert SharesFor(2, 1_000_000_001, 1_000_000_000) == 1 && SharesFor(2, 1_000_000_003, 1_000_000_001) == 1;
    assert [2, 2][1..] == [2] && [2][1..] == [];
  }
}
