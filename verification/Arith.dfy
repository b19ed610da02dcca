/** Integer division as Rust and BigInt perform it, and the few nonlinear facts
    the accounting proofs rest on.  Everything here is stated about products, so
    that callers never have to reason about quotients directly. */
module Arith {

  /** Division that truncates toward zero. */
  function TruncDiv(n: int, d: int): int
    requires d != 0
  {
    if n >= 0 then n / d else -((-n) / d)
  }

  /** Division that rounds toward positive infinity, for non-negative operands. */
  function CeilDiv(n: nat, d: nat): nat
    requires d > 0
  {
    (n + d - 1) / d
  }

  lemma MulLe(a: int, b: int, c: int)
    requires a <= b && c >= 0
    ensures a * c <= b * c
  {
  }

  lemma MulLt(a: int, b: int, c: int)
    requires a < b && c > 0
    ensures a * c < b * c
  {
  }

  lemma MulCancelLe(a: int, b: int, c: int)
    requires a * c <= b * c && c > 0
    ensures a <= b
  {
  }

  lemma MulCancelLt(a: int, b: int, c: int)
    requires a * c < b * c && c > 0
    ensures a < b
  {
  }

  lemma MulAssoc(a: int, b: int, c: int)
    ensures a * b * c == a * (b * c)
  {
  }

  /** The quotient is pinned between two products. */
  lemma FloorBounds(n: int, d: int)
    requires n >= 0 && d > 0
    ensures TruncDiv(n, d) >= 0
    ensures TruncDiv(n, d) * d <= n < TruncDiv(n, d) * d + d
  {
    assert n == (n / d) * d + n % d;
    if n / d < 0 { MulLe(n / d, -1, d); }
  }

  lemma FloorAtLeast(n: int, d: int, k: int)
    requires n >= 0 && d > 0 && k * d <= n
    ensures k <= TruncDiv(n, d)
  {
    FloorBounds(n, d);
    var q := TruncDiv(n, d);
    assert (q + 1) * d == q * d + d;
    MulCancelLt(k, q + 1, d);
  }

  lemma FloorAtMost(n: int, d: int, k: int)
    requires n >= 0 && d > 0 && n < k * d + d
    ensures TruncDiv(n, d) <= k
  {
    FloorBounds(n, d);
    var q := TruncDiv(n, d);
    assert (k + 1) * d == k * d + d;
    MulCancelLt(q, k + 1, d);
  }

  lemma FloorUnique(n: int, d: int, k: int)
    requires n >= 0 && d > 0 && k * d <= n < k * d + d
    ensures TruncDiv(n, d) == k
  {
    FloorAtLeast(n, d, k);
    FloorAtMost(n, d, k);
  }

  lemma CeilBounds(n: nat, d: nat)
    requires d > 0
    ensures n <= CeilDiv(n, d) * d < n + d
  {
  }

  /** The rounded-up quotient is the least multiple that covers n. */
  lemma CeilAtMost(n: nat, d: nat, k: int)
    requires d > 0 && n <= k * d
    ensures CeilDiv(n, d) <= k
  {
    CeilBounds(n, d);
    var q := CeilDiv(n, d);
    assert (q - 1) * d == q * d - d;
    MulCancelLt(q - 1, k, d);
  }

  lemma CeilAtLeast(n: nat, d: nat, k: int)
    requires d > 0 && n > k * d - d
    ensures CeilDiv(n, d) >= k
  {
    CeilBounds(n, d);
    var q := CeilDiv(n, d);
    assert (k - 1) * d == k * d - d;
    MulCancelLt(k - 1, q, d);
  }
}
