/** Balance tables keyed by address, where a missing entry reads as zero, and the
    total they hold. */
module Balances {

  type Address = nat
  type Table = map<Address, nat>

  datatype Option<+T> = None | Some(value: T)

  function Get(t: Table, a: Address): nat {
    if a in t then t[a] else 0
  }

  /** Debit one entry, then credit another; the credited entry is read after the debit
      is written.  Fails on a negative amount or an insufficient balance. */
  function Move(t: Table, from: Address, to: Address, amount: int): Option<Table> {
    if amount < 0 || Get(t, from) < amount then None else
    var debited := t[from := Get(t, from) - amount];
    Some(debited[to := Get(debited, to) + amount])
  }

  ghost function Sum(t: Table): nat
    decreases |t|
  {
    if t == map[] then 0 else
    var a :| a in t;
    t[a] + Sum(t - {a})
  }

  lemma {:induction false} SumSplit(t: Table, a: Address)
    requires a in t
    ensures Sum(t) == t[a] + Sum(t - {a})
    decreases |t|
  {
    var b :| b in t && Sum(t) == t[b] + Sum(t - {b});
    if a != b {
      SumSplit(t - {b}, a);
      SumSplit(t - {a}, b);
      assert t - {a} - {b} == t - {b} - {a};
    }
  }

  lemma SumPut(t: Table, a: Address, v: nat)
    ensures Sum(t[a := v]) == Sum(t) - Get(t, a) + v
  {
    SumSplit(t[a := v], a);
    assert t[a := v] - {a} == t - {a};
    if a in t {
      SumSplit(t, a);
    } else {
      assert t - {a} == t;
    }
  }

  lemma GetAtMostSum(t: Table, a: Address)
    ensures Get(t, a) <= Sum(t)
  {
  }

  /** Moving an amount conserves the total, also when both entries are the same; and
      changes exactly what it says. */
  lemma MoveConserves(t: Table, from: Address, to: Address, amount: int)
    requires Move(t, from, to, amount).Some?
    ensures var t' := Move(t, from, to, amount).value;
            && Sum(t') == Sum(t)
            && (from != to ==> Get(t', from) == Get(t, from) - amount && Get(t', to) == Get(t, to) + amount)
            && (from == to ==> Get(t', to) == Get(t, to))
            && (forall a :: a != from && a != to ==> Get(t', a) == Get(t, a))
  {
    SumPut(t, from, Get(t, from) - amount);
    var debited := t[from := Get(t, from) - amount];
    SumPut(debited, to, Get(debited, to) + amount);
  }
}
