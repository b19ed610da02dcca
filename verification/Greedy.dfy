/** The redemption waterfall against a closed-form account of what a greedy withdrawal
    takes from each strategy. */
module Greedy {
  import opened Arith
  import opened Balances
  import opened Results
  import opened Shares
  import opened Positions
  import opened Strategies
  import opened Model
  import opened Accounting

  function NonNegative(x: int): nat {
    if x < 0 then 0 else x
  }

  function Min(x: int, y: int): int {
    if x < y then x else y
  }

  /** Everything a list of quotes can deliver; a negative quote delivers nothing. */
  function Capacity(quotes: seq<int>): nat {
    if quotes == [] then 0 else NonNegative(quotes[0]) + Capacity(quotes[1..])
  }

  /** What the greedy withdrawal of `need` takes from the strategy at position `i`:
      what is still needed once everything before it is drained, up to its quote. */
  function Take(quotes: seq<int>, need: int, i: nat): nat
    requires i < |quotes|
  {
    Min(NonNegative(quotes[i]), NonNegative(need - Capacity(quotes[..i])))
  }

  lemma {:induction false} CapacityMonotone(quotes: seq<int>, i: nat, j: nat)
    requires i < j <= |quotes|
    ensures Capacity(quotes[..i]) + NonNegative(quotes[i]) <= Capacity(quotes[..j]) <= Capacity(quotes)
    decreases |quotes|
  {
    assert quotes[..j][1..] == quotes[1..][..j - 1];
    if i == 0 {
      if j > 1 { CapacityMonotone(quotes[1..], 0, j - 1); }
    } else {
      assert quotes[..i][1..] == quotes[1..][..i - 1];
      CapacityMonotone(quotes[1..], i - 1, j - 1);
    }
  }

  /** Greed in list order: whatever is taken from a strategy is taken only after every
      earlier one is drained, and a strategy that is not drained is the last one
      touched.  So at most one strategy is partly drawn. */
  lemma TakenInOrder(quotes: seq<int>, need: int, i: nat, j: nat)
    requires i < j < |quotes|
    ensures Take(quotes, need, j) > 0 ==> Take(quotes, need, i) == NonNegative(quotes[i])
    ensures Take(quotes, need, i) < NonNegative(quotes[i]) ==> Take(quotes, need, j) == 0
  {
    CapacityMonotone(quotes, i, j);
  }

  /** Positions move down by one, and the need by what the head delivers, when the head
      is done. */
  lemma TakeTail(quotes: seq<int>, need: nat, i: nat)
    requires 0 < i < |quotes|
    ensures Take(quotes, need, i) == Take(quotes[1..], need - Take(quotes, need, 0), i - 1)
  {
    assert quotes[..i][1..] == quotes[1..][..i - 1];
    assert quotes[..0] == [];
  }

  function TakeSum(quotes: seq<int>, need: int, upTo: nat): nat
    requires upTo <= |quotes|
  {
    if upTo == 0 then 0 else TakeSum(quotes, need, upTo - 1) + Take(quotes, need, upTo - 1)
  }

  /** In total the withdrawal takes what was needed, or everything there is. */
  lemma {:induction false} TakeTotal(quotes: seq<int>, need: nat, upTo: nat)
    requires upTo <= |quotes|
    ensures TakeSum(quotes, need, upTo) == Min(need, Capacity(quotes[..upTo]))
    decreases upTo
  {
    if upTo > 0 {
      TakeTotal(quotes, need, upTo - 1);
      CapacitySnoc(quotes[..upTo - 1], quotes[upTo - 1]);
      assert quotes[..upTo - 1] + [quotes[upTo - 1]] == quotes[..upTo];
    }
  }

  lemma {:induction false} CapacitySnoc(quotes: seq<int>, q: int)
    ensures Capacity(quotes + [q]) == Capacity(quotes) + NonNegative(q)
  {
    if quotes == [] {
      assert quotes + [q] == [q] && [q][1..] == [];
    } else {
      assert (quotes + [q])[1..] == quotes[1..] + [q];
      CapacitySnoc(quotes[1..], q);
    }
  }

  // ------------------------------------------------------------------ single pulls

  /** The strategy at `s` can deliver `x` to the vault, and the account that holds its
      funds has the tokens. */
  predicate Delivers(w: World, s: Address, x: nat)
    requires s in w.deployed
  {
    w.deployed[s].CanPay(w.self, x) && x <= Get(w.token, w.deployed[s].Custody(s))
  }

  /** A pull within the quote delivers exactly the amount asked, or fails because the
      strategy cannot deliver it. */
  lemma PullWithinQuote(w: World, s: Address, amount: nat)
    requires Apart(w.self, w.deployed) && s in w.deployed && 0 < amount <= w.deployed[s].Available()
    ensures PullFrom(w, s, amount).Ok? <==> Delivers(w, s, amount)
    ensures PullFrom(w, s, amount).Err? ==> PullFrom(w, s, amount) == Err(HostTrap)
    ensures PullFrom(w, s, amount).Ok? ==>
              var (w', x) := PullFrom(w, s, amount).value; x == amount && Pulled(w, w', s, x)
  {
    QuoteWithinLedger(w.deployed[s]);
    WithdrawOutcome(w.deployed[s], s, w.token, w.self, amount);
  }

  /** No strategy quotes more than its own record. */
  lemma QuoteWithinLedger(st: Strategy)
    ensures st.Available() <= st.Ledger() || st.Available() <= 0
  {
  }

  /** Delivering an amount includes delivering any smaller one. */
  lemma DeliversLess(w: World, s: Address, x: nat, y: nat)
    requires s in w.deployed && Delivers(w, s, x) && y <= x
    ensures Delivers(w, s, y)
  {
    if w.deployed[s].Lending? {
      var r := w.deployed[s].position.pool.bRate;
      BurnsLess(x, y, r);
    }
  }

  lemma BurnsLess(x: nat, y: nat, r: Positive)
    requires y <= x
    ensures BTokensBurned(y, r) <= BTokensBurned(x, r)
  {
    CeilBounds(x * BLEND_RATE_SCALAR, r);
    CeilAtMost(y * BLEND_RATE_SCALAR, r, BTokensBurned(x, r));
  }

  // ------------------------------------------------------------------ the vault's loop

  /** A list of deployed strategies whose funds are held in different accounts, none of
      them the vault's. */
  ghost predicate Separate(w: World, list: seq<Address>) {
    && NoDuplicates(list) && Apart(w.self, w.deployed)
    && (forall s :: s in list ==> s in w.deployed)
    && forall i, j :: 0 <= i < j < |list| ==> FundsAccount(w, list[i]) != FundsAccount(w, list[j])
  }

  function FundsAccount(w: World, s: Address): Address {
    if s in w.deployed then w.deployed[s].Custody(s) else s
  }

  function Quotes(w: World, list: seq<Address>): seq<int>
    requires forall s :: s in list ==> s in w.deployed
  {
    seq(|list|, i requires 0 <= i < |list| => w.deployed[list[i]].Available())
  }

  /** Every strategy the greedy withdrawal of `need` reaches can deliver its part. */
  ghost predicate Deliverable(w: World, list: seq<Address>, need: nat)
    requires forall s :: s in list ==> s in w.deployed
  {
    forall i :: 0 <= i < |list| && Take(Quotes(w, list), need, i) > 0 ==>
      Delivers(w, list[i], Take(Quotes(w, list), need, i))
  }

  /** Every quote can be delivered as a whole. */
  ghost predicate Honest(w: World, list: seq<Address>) {
    forall s :: s in list ==> s in w.deployed && HonestAt(w, s)
  }

  predicate HonestAt(w: World, s: Address)
    requires s in w.deployed
  {
    var quote := w.deployed[s].Available();
    quote > 0 ==> Delivers(w, s, quote)
  }

  lemma HonestIsDeliverable(w: World, list: seq<Address>, need: nat)
    requires Honest(w, list)
    ensures Deliverable(w, list, need)
  {
    var quotes := Quotes(w, list);
    forall i | 0 <= i < |list| && Take(quotes, need, i) > 0 ensures Delivers(w, list[i], Take(quotes, need, i)) {
      assert HonestAt(w, list[i]);
      DeliversLess(w, list[i], quotes[i], Take(quotes, need, i));
    }
  }

  /** The strategy at `s` has paid out `x`: its own state, its record at the vault and the
      account that holds its funds say so. */
  ghost predicate PaidOut(w: World, w': World, s: Address, x: nat)
    requires s in w.deployed && s in w'.deployed
  {
    && w'.deployed[s] == (if x == 0 then w.deployed[s] else w.deployed[s].Drawn(x))
    && Get(w'.token, FundsAccount(w, s)) == Get(w.token, FundsAccount(w, s)) - x
    && Get(w'.tracked, s) == SaturatingSub(Get(w.tracked, s), x)
  }

  /** Nothing about the strategy, or the vault's record of it, has changed. */
  ghost predicate SameRecord(w: World, w': World, s: Address) {
    && Get(w'.tracked, s) == Get(w.tracked, s)
    && (s in w.deployed <==> s in w'.deployed) && (s in w.deployed ==> w.deployed[s] == w'.deployed[s])
  }

  ghost predicate SameTokens(w: World, w': World, a: Address) {
    Get(w'.token, a) == Get(w.token, a)
  }

  ghost predicate HoldsFunds(w: World, list: seq<Address>, a: Address) {
    exists s :: s in list && FundsAccount(w, s) == a
  }

  /** The whole effect of raising `need` from `list`. */
  ghost predicate RaisedExactly(w: World, list: seq<Address>, need: nat, w': World)
    requires forall s :: s in list ==> s in w.deployed
  {
    var quotes := Quotes(w, list);
    && w' == w.(deployed := w'.deployed, token := w'.token, tracked := w'.tracked)
    && Idle(w') == Idle(w) + Min(need, Capacity(quotes))
    && (forall i :: 0 <= i < |list| ==> list[i] in w'.deployed && PaidOut(w, w', list[i], Take(quotes, need, i)))
    && (forall s :: s !in list ==> SameRecord(w, w', s))
    && (forall a :: a != w.self && !HoldsFunds(w, list, a) ==> SameTokens(w, w', a))
  }

  /** The loop's first step: the head pays its greedy part, possibly nothing. */
  ghost predicate HeadPaid(w: World, list: seq<Address>, need: nat, w1: World)
    requires list != [] && forall s :: s in list ==> s in w.deployed
  {
    var x := Take(Quotes(w, list), need, 0);
    && x <= need
    && list[0] in w1.deployed && PaidOut(w, w1, list[0], x) && SameContract(w.deployed[list[0]], w1.deployed[list[0]])
    && w1 == w.(deployed := w1.deployed, token := w1.token, tracked := w1.tracked)
    && Idle(w1) == Idle(w) + x
    && (forall s :: s != list[0] ==> SameRecord(w, w1, s))
    && (forall a :: a != w.self && a != FundsAccount(w, list[0]) ==> SameTokens(w, w1, a))
  }

  lemma HeadQuote(w: World, list: seq<Address>, need: nat)
    requires list != [] && forall s :: s in list ==> s in w.deployed
    ensures Take(Quotes(w, list), need, 0) == Min(NonNegative(w.deployed[list[0]].Available()), need)
  {
    assert Quotes(w, list)[..0] == [];
  }

  /** The hop asks the head for exactly its greedy part, and goes through exactly when the
      head can deliver that. */
  lemma HeadHop(w: World, list: seq<Address>, need: nat)
    requires list != [] && Separate(w, list) && need > 0
    ensures var x := Take(Quotes(w, list), need, 0);
            && (Hop(w, list[0], need).Ok? <==> (x > 0 ==> Delivers(w, list[0], x)))
            && (Hop(w, list[0], need).Err? ==> Hop(w, list[0], need) == Err(HostTrap))
            && (Hop(w, list[0], need).Ok? ==>
                  Hop(w, list[0], need).value.1 == need - x && HeadPaid(w, list, need, Hop(w, list[0], need).value.0))
  {
    var s := list[0];
    HeadQuote(w, list, need);
    var x := Take(Quotes(w, list), need, 0);
    if x > 0 {
      PullWithinQuote(w, s, x);
      if Delivers(w, s, x) { PulledIsPaid(w, PullFrom(w, s, x).value.0, list, need); }
    }
  }

  lemma PulledIsPaid(w: World, w1: World, list: seq<Address>, need: nat)
    requires list != [] && Separate(w, list)
    requires var x := Take(Quotes(w, list), need, 0);
             0 < x <= need && Pulled(w, w1, list[0], x)
    ensures HeadPaid(w, list, need, w1)
  {
    DrawnFacts(w.deployed[list[0]], Take(Quotes(w, list), need, 0));
  }

  /** What the head does leaves the others as they were. */
  ghost predicate TailKept(w: World, w1: World, list: seq<Address>)
    requires list != [] && forall s :: s in list ==> s in w.deployed
  {
    && Separate(w1, list[1..]) && Quotes(w1, list[1..]) == Quotes(w, list)[1..]
    && (forall s :: s in list[1..] ==> FundsAccount(w1, s) == FundsAccount(w, s))
    && (forall s, x: nat :: s in list[1..] ==> (Delivers(w1, s, x) <==> Delivers(w, s, x)))
  }

  lemma TailUntouched(w: World, w1: World, list: seq<Address>, need: nat)
    requires list != [] && Separate(w, list) && HeadPaid(w, list, need, w1)
    ensures TailKept(w, w1, list)
  {
    var rest := list[1..];
    HeadKeepsContracts(w, w1, list, need);
    forall i | 0 <= i < |rest|
      ensures rest[i] in w1.deployed && w1.deployed[rest[i]] == w.deployed[rest[i]]
              && SameTokens(w, w1, FundsAccount(w, rest[i]))
    {
      assert rest[i] == list[i + 1] && rest[i] != list[0];
      assert SameRecord(w, w1, rest[i]);
      FundsAccountApart(w, rest[i]);
    }
  }

  lemma HeadKeepsContracts(w: World, w1: World, list: seq<Address>, need: nat)
    requires list != [] && Separate(w, list) && HeadPaid(w, list, need, w1)
    ensures Apart(w1.self, w1.deployed)
  {
    forall s | s in w.deployed ensures s in w1.deployed && SameContract(w.deployed[s], w1.deployed[s]) {
      assert s != list[0] ==> SameRecord(w, w1, s);
    }
    forall s | s in w1.deployed ensures s in w.deployed { assert s != list[0] ==> SameRecord(w, w1, s); }
    ApartKept(w.self, w.deployed, w1.deployed);
  }

  lemma FundsAccountApart(w: World, s: Address)
    requires Apart(w.self, w.deployed) && s in w.deployed
    ensures FundsAccount(w, s) != w.self
  {
  }

  /** What the head leaves to be raised is taken from the tail as from the whole list. */
  lemma TakesShift(w: World, w1: World, list: seq<Address>, need: nat, left: nat)
    requires list != [] && Separate(w, list) && TailKept(w, w1, list)
    requires left == need - Take(Quotes(w, list), need, 0)
    ensures forall i :: 0 < i < |list| ==>
              Take(Quotes(w, list), need, i) == Take(Quotes(w1, list[1..]), left, i - 1)
  {
    forall i | 0 < i < |list| ensures Take(Quotes(w, list), need, i) == Take(Quotes(w1, list[1..]), left, i - 1) {
      TakeTail(Quotes(w, list), need, i);
    }
  }

  /** Exactly when the tail can deliver the rest, the whole list can deliver the whole. */
  lemma DeliverableSplit(w: World, w1: World, list: seq<Address>, need: nat, left: nat)
    requires list != [] && Separate(w, list) && HeadPaid(w, list, need, w1) && TailKept(w, w1, list)
    requires left == need - Take(Quotes(w, list), need, 0)
    ensures Deliverable(w, list, need) <==>
              (Take(Quotes(w, list), need, 0) > 0 ==> Delivers(w, list[0], Take(Quotes(w, list), need, 0)))
              && Deliverable(w1, list[1..], left)
  {
    TakesShift(w, w1, list, need, left);
    DeliverableTail(w, w1, list, need, left);
    if Deliverable(w1, list[1..], left) {
      forall i | 0 < i < |list| && Take(Quotes(w, list), need, i) > 0
        ensures Delivers(w, list[i], Take(Quotes(w, list), need, i))
      {
        assert list[i] == list[1..][i - 1];
      }
    }
  }

  lemma DeliverableTail(w: World, w1: World, list: seq<Address>, need: nat, left: nat)
    requires list != [] && Separate(w, list) && TailKept(w, w1, list)
    requires forall i :: 0 < i < |list| ==>
               Take(Quotes(w, list), need, i) == Take(Quotes(w1, list[1..]), left, i - 1)
    ensures Deliverable(w, list, need) ==> Deliverable(w1, list[1..], left)
  {
    var rest := list[1..];
    if Deliverable(w, list, need) {
      forall i | 0 <= i < |rest| && Take(Quotes(w1, rest), left, i) > 0
        ensures Delivers(w1, rest[i], Take(Quotes(w1, rest), left, i))
      {
        assert rest[i] == list[i + 1] && Take(Quotes(w, list), need, i + 1) == Take(Quotes(w1, rest), left, i);
      }
    }
  }

  /** What the waterfall should report: success with exactly the greedy amounts taken if
      everyone it reaches can deliver, and an aborted transaction otherwise. */
  ghost predicate GreedyReply(w: World, list: seq<Address>, need: nat, r: Reply<()>)
    requires forall s :: s in list ==> s in w.deployed
  {
    match r
    case Ok((w', _)) => Deliverable(w, list, need) && RaisedExactly(w, list, need, w')
    case Err(e) => !Deliverable(w, list, need) && e == HostTrap
  }

  /** The waterfall goes through exactly when every strategy it reaches can deliver its
      greedy part; then it takes exactly the greedy amounts and touches nothing else. */
  lemma {:induction false} WaterfallExact(w: World, list: seq<Address>, need: nat)
    requires Separate(w, list)
    ensures GreedyReply(w, list, need, Waterfall(w, list, need))
    decreases |list|
  {
    if list == [] || need == 0 {
      NothingRaised(w, list, need);
    } else if Hop(w, list[0], need).Err? {
      HeadRefuses(w, list, need);
    } else {
      var (w1, left) := Hop(w, list[0], need).value;
      HopDescends(w, list, need, w1, left);
      WaterfallExact(w1, list[1..], left);
    }
  }

  lemma HeadRefuses(w: World, list: seq<Address>, need: nat)
    requires list != [] && Separate(w, list) && need > 0 && Hop(w, list[0], need).Err?
    ensures GreedyReply(w, list, need, Waterfall(w, list, need))
  {
    HeadHop(w, list, need);
  }

  lemma HopDescends(w: World, list: seq<Address>, need: nat, w1: World, left: int)
    requires list != [] && Separate(w, list) && need > 0 && Hop(w, list[0], need) == Ok((w1, left))
    ensures left >= 0 && Separate(w1, list[1..])
    ensures forall r :: GreedyReply(w1, list[1..], left, r) ==> GreedyReply(w, list, need, r)
  {
    HopPaid(w, list, need, w1, left);
    Descend(w, w1, list, need, left);
  }

  lemma HopPaid(w: World, list: seq<Address>, need: nat, w1: World, left: int)
    requires list != [] && Separate(w, list) && need > 0 && Hop(w, list[0], need) == Ok((w1, left))
    ensures HeadPaid(w, list, need, w1)
    ensures var x := Take(Quotes(w, list), need, 0); left == need - x && (x > 0 ==> Delivers(w, list[0], x))
  {
    HeadHop(w, list, need);
  }

  /** One level of the induction: an exact account of the tail gives one of the list. */
  lemma Descend(w: World, w1: World, list: seq<Address>, need: nat, left: nat)
    requires list != [] && Separate(w, list) && HeadPaid(w, list, need, w1)
    requires var x := Take(Quotes(w, list), need, 0); left == need - x && (x > 0 ==> Delivers(w, list[0], x))
    ensures Separate(w1, list[1..])
    ensures forall r :: GreedyReply(w1, list[1..], left, r) ==> GreedyReply(w, list, need, r)
  {
    TailUntouched(w, w1, list, need);
    OnwardAlways(w, w1, list, need, left);
  }

  lemma OnwardAlways(w: World, w1: World, list: seq<Address>, need: nat, left: nat)
    requires list != [] && Separate(w, list) && HeadPaid(w, list, need, w1) && TailKept(w, w1, list)
    requires var x := Take(Quotes(w, list), need, 0); left == need - x && (x > 0 ==> Delivers(w, list[0], x))
    ensures forall r :: GreedyReply(w1, list[1..], left, r) ==> GreedyReply(w, list, need, r)
  {
    forall r | GreedyReply(w1, list[1..], left, r) ensures GreedyReply(w, list, need, r) {
      Onward(w, w1, list, need, left, r);
    }
  }

  lemma Onward(w: World, w1: World, list: seq<Address>, need: nat, left: nat, r: Reply<()>)
    requires list != [] && Separate(w, list) && HeadPaid(w, list, need, w1) && TailKept(w, w1, list)
    requires var x := Take(Quotes(w, list), need, 0); left == need - x && (x > 0 ==> Delivers(w, list[0], x))
    requires GreedyReply(w1, list[1..], left, r)
    ensures GreedyReply(w, list, need, r)
  {
    DeliverableSplit(w, w1, list, need, left);
    if r.Ok? { WaterfallStep(w, w1, list, need, left, r.value.0); }
  }

  lemma NothingRaised(w: World, list: seq<Address>, need: nat)
    requires Separate(w, list) && (list == [] || need == 0)
    ensures Waterfall(w, list, need) == Ok((w, ()))
    ensures Deliverable(w, list, need) && RaisedExactly(w, list, need, w)
  {
    var quotes := Quotes(w, list);
    forall i | 0 <= i < |list| ensures Take(quotes, need, i) == 0 && PaidOut(w, w, list[i], Take(quotes, need, i)) {
    }
  }

  /** The head's part and the tail's part together are the greedy account. */
  lemma WaterfallStep(w: World, w1: World, list: seq<Address>, need: nat, left: nat, w2: World)
    requires list != [] && Separate(w, list) && HeadPaid(w, list, need, w1) && TailKept(w, w1, list)
    requires left == need - Take(Quotes(w, list), need, 0) && RaisedExactly(w1, list[1..], left, w2)
    ensures RaisedExactly(w, list, need, w2)
  {
    var quotes := Quotes(w, list);
    var rest := list[1..];
    assert quotes[..0] == [];
    StepPays(w, w1, list, need, left, w2);
    forall s | s !in list ensures SameRecord(w, w2, s) {
      assert SameRecord(w, w1, s) && SameRecord(w1, w2, s);
    }
    forall a | a != w.self && !HoldsFunds(w, list, a) ensures SameTokens(w, w2, a) {
      assert list[0] in list;
      assert !HoldsFunds(w1, rest, a) by {
        forall s | s in rest ensures FundsAccount(w1, s) != a { assert s in list; }
      }
      assert SameTokens(w, w1, a) && SameTokens(w1, w2, a);
    }
  }

  lemma StepPays(w: World, w1: World, list: seq<Address>, need: nat, left: nat, w2: World)
    requires list != [] && Separate(w, list) && HeadPaid(w, list, need, w1) && TailKept(w, w1, list)
    requires left == need - Take(Quotes(w, list), need, 0) && RaisedExactly(w1, list[1..], left, w2)
    ensures forall i :: 0 <= i < |list| ==>
              list[i] in w2.deployed && PaidOut(w, w2, list[i], Take(Quotes(w, list), need, i))
  {
    var quotes := Quotes(w, list);
    forall i | 0 <= i < |list| ensures list[i] in w2.deployed && PaidOut(w, w2, list[i], Take(quotes, need, i)) {
      if i == 0 {
        StepPaysHead(w, w1, list, need, left, w2);
      } else {
        StepPaysTail(w, w1, list, need, left, w2, i);
      }
    }
  }

  lemma StepPaysTail(w: World, w1: World, list: seq<Address>, need: nat, left: nat, w2: World, i: nat)
    requires list != [] && Separate(w, list) && HeadPaid(w, list, need, w1) && TailKept(w, w1, list)
    requires left == need - Take(Quotes(w, list), need, 0) && RaisedExactly(w1, list[1..], left, w2)
    requires 0 < i < |list|
    ensures list[i] in w2.deployed && PaidOut(w, w2, list[i], Take(Quotes(w, list), need, i))
  {
    assert list[i] == list[1..][i - 1];
    assert SameRecord(w, w1, list[i]);
    FundsAccountApart(w, list[i]);
    assert SameTokens(w, w1, FundsAccount(w, list[i]));
    TakesShift(w, w1, list, need, left);
  }

  lemma StepPaysHead(w: World, w1: World, list: seq<Address>, need: nat, left: nat, w2: World)
    requires list != [] && Separate(w, list) && HeadPaid(w, list, need, w1) && TailKept(w, w1, list)
    requires left == need - Take(Quotes(w, list), need, 0) && RaisedExactly(w1, list[1..], left, w2)
    ensures list[0] in w2.deployed && PaidOut(w, w2, list[0], Take(Quotes(w, list), need, 0))
  {
    var rest := list[1..];
    assert list[0] !in rest;
    assert SameRecord(w1, w2, list[0]);
    FundsAccountApart(w, list[0]);
    forall s | s in rest ensures FundsAccount(w1, s) != FundsAccount(w, list[0]) {
      var j :| 0 <= j < |rest| && rest[j] == s;
      assert list[j + 1] == s;
    }
    assert !HoldsFunds(w1, rest, FundsAccount(w, list[0]));
    assert SameTokens(w1, w2, FundsAccount(w, list[0]));
  }

  // ------------------------------------------------------------------ redemption

  function Shortfall(w: World, assets: int): nat {
    NonNegative(assets - Idle(w))
  }

  /** Paying out is raising the shortfall, if any, and then, if it was enough, burning and
      paying. */
  lemma PayOutRaises(w: World, from: Address, shares: nat, assets: nat)
    ensures PayOut(w, from, shares, assets) ==
              match Waterfall(w, w.strategies, Shortfall(w, assets))
              case Err(e) => Err(e)
              case Ok((w1, _)) =>
                if Idle(w1) < assets then Err(InsufficientAssets) else BurnAndPay(w1, from, shares, assets)
  {
  }

  lemma BurnAndPayIff(w: World, from: Address, shares: nat, assets: nat)
    requires assets <= Idle(w)
    ensures BurnAndPay(w, from, shares, assets).Ok? <==> shares <= Get(w.shares, from)
  {
  }

  /** What raising the shortfall means for the redemption that asked for it. */
  lemma RaisedEnough(w: World, assets: nat, w1: World)
    requires Separate(w, w.strategies) && RaisedExactly(w, w.strategies, Shortfall(w, assets), w1)
    ensures w1.shares == w.shares
    ensures assets <= Idle(w1) <==> assets <= Idle(w) + Capacity(Quotes(w, w.strategies))
  {
  }

  lemma PayOutIff(w: World, from: Address, shares: nat, assets: nat)
    requires Separate(w, w.strategies) && shares <= Get(w.shares, from)
    ensures PayOut(w, from, shares, assets).Ok? <==>
              && assets <= Idle(w) + Capacity(Quotes(w, w.strategies))
              && Deliverable(w, w.strategies, Shortfall(w, assets))
    ensures PayOut(w, from, shares, assets).Err? ==>
              PayOut(w, from, shares, assets).error
              == if Deliverable(w, w.strategies, Shortfall(w, assets)) then InsufficientAssets else HostTrap
  {
    WaterfallExact(w, w.strategies, Shortfall(w, assets));
    PayOutRaises(w, from, shares, assets);
    var raised := Waterfall(w, w.strategies, Shortfall(w, assets));
    if raised.Ok? {
      RaisedEnough(w, assets, raised.value.0);
      if assets <= Idle(raised.value.0) { BurnAndPayIff(raised.value.0, from, shares, assets); }
    }
  }

  /** When a redemption succeeds, exactly: the request must be one the holder can make,
      idle funds plus the strategies' quotes must cover it, and every strategy that is
      reached must deliver its greedy part of the shortfall.  Otherwise it reports that
      assets are insufficient or, where a strategy did not deliver, aborts. */
  lemma RedeemSucceedsIff(w: World, from: Address, shares: int)
    requires Wf(w) && Separate(w, w.strategies)
    ensures var assets := AssetsFor(shares, TotalAssets(w), w.supply);
            Redeem(w, from, shares).Ok? <==>
              && 0 < shares <= Get(w.shares, from) && assets > 0
              && assets <= Idle(w) + Capacity(Quotes(w, w.strategies))
              && Deliverable(w, w.strategies, Shortfall(w, assets))
    ensures var assets := AssetsFor(shares, TotalAssets(w), w.supply);
            0 < shares <= Get(w.shares, from) && assets > 0 && Redeem(w, from, shares).Err? ==>
              Redeem(w, from, shares).error
              == if Deliverable(w, w.strategies, Shortfall(w, assets)) then InsufficientAssets else HostTrap
  {
    var assets := AssetsFor(shares, TotalAssets(w), w.supply);
    if 0 < shares <= Get(w.shares, from) && assets > 0 { PayOutIff(w, from, shares, assets); }
  }

  /** With honest quotes, whether funds suffice is all that matters. */
  lemma HonestRedeemSucceedsIff(w: World, from: Address, shares: int)
    requires Wf(w) && Separate(w, w.strategies) && Honest(w, w.strategies)
    ensures var assets := AssetsFor(shares, TotalAssets(w), w.supply);
            Redeem(w, from, shares).Ok? <==>
              && 0 < shares <= Get(w.shares, from) && assets > 0
              && assets <= Idle(w) + Capacity(Quotes(w, w.strategies))
  {
    RedeemSucceedsIff(w, from, shares);
    HonestIsDeliverable(w, w.strategies, Shortfall(w, AssetsFor(shares, TotalAssets(w), w.supply)));
  }

  /** The tokens and strategies after a redemption by someone who does not hold strategy
      funds: each strategy pays its greedy part of the shortfall, idle funds cover the
      rest, and the holder receives the whole amount. */
  ghost predicate Redeemed(w: World, w': World, from: Address, assets: nat)
    requires forall s :: s in w.strategies ==> s in w.deployed
  {
    var need := Shortfall(w, assets);
    var quotes := Quotes(w, w.strategies);
    && Get(w'.token, from) == Get(w.token, from) + assets
    && Idle(w') == Idle(w) + need - assets
    && TakeSum(quotes, need, |quotes|) == need
    && (forall i :: 0 <= i < |w.strategies| ==>
          w.strategies[i] in w'.deployed && PaidOut(w, w', w.strategies[i], Take(quotes, need, i)))
    && (forall s :: s !in w.strategies ==> SameRecord(w, w', s))
    && (forall a :: a != w.self && a != from && !HoldsFunds(w, w.strategies, a) ==> SameTokens(w, w', a))
  }

  lemma RedeemMoves(w: World, from: Address, shares: int)
    requires Wf(w) && Separate(w, w.strategies) && Redeem(w, from, shares).Ok?
    requires from != w.self && !HoldsFunds(w, w.strategies, from)
    ensures var (w', assets) := Redeem(w, from, shares).value;
            assets > 0 && Redeemed(w, w', from, assets)
  {
    var assets := AssetsFor(shares, TotalAssets(w), w.supply);
    PayOutMoves(w, from, shares, assets);
  }

  lemma PayOutMoves(w: World, from: Address, shares: nat, assets: nat)
    requires Separate(w, w.strategies) && PayOut(w, from, shares, assets).Ok?
    requires from != w.self && !HoldsFunds(w, w.strategies, from)
    ensures var (w', paid) := PayOut(w, from, shares, assets).value;
            paid == assets && Redeemed(w, w', from, assets)
  {
    WaterfallExact(w, w.strategies, Shortfall(w, assets));
    PayOutRaises(w, from, shares, assets);
    var w1 := Waterfall(w, w.strategies, Shortfall(w, assets)).value.0;
    var w' := PaidHolder(w1, from, shares, assets);
    PaymentLeavesStrategies(w, w1, w', from, assets);
  }

  lemma PaidHolder(w: World, from: Address, shares: nat, assets: nat) returns (w': World)
    requires from != w.self && BurnAndPay(w, from, shares, assets).Ok?
    ensures BurnAndPay(w, from, shares, assets) == Ok((w', assets))
    ensures w'.deployed == w.deployed && w'.tracked == w.tracked && w'.self == w.self
    ensures assets <= Idle(w) && Moved(w.token, w'.token, w.self, from, assets)
  {
    w' := BurnAndPay(w, from, shares, assets).value.0;
    MoveMoves(w.token, w.self, from, assets);
  }

  /** Paying the holder afterwards leaves what the strategies did as it was. */
  lemma PaymentLeavesStrategies(w: World, w1: World, w': World, from: Address, assets: nat)
    requires Separate(w, w.strategies) && RaisedExactly(w, w.strategies, Shortfall(w, assets), w1)
    requires from != w.self && !HoldsFunds(w, w.strategies, from)
    requires w'.deployed == w1.deployed && w'.tracked == w1.tracked && w'.self == w1.self
    requires assets <= Idle(w1) && Moved(w1.token, w'.token, w.self, from, assets)
    ensures Redeemed(w, w', from, assets)
  {
    var need, quotes := Shortfall(w, assets), Quotes(w, w.strategies);
    TakeTotal(quotes, need, |quotes|);
    assert quotes[..|quotes|] == quotes;
    assert SameTokens(w, w1, from);
    StillPaid(w, w1, w', from, need);
    forall s | s !in w.strategies ensures SameRecord(w, w', s) { assert SameRecord(w, w1, s); }
    forall a | a != w.self && a != from && !HoldsFunds(w, w.strategies, a) ensures SameTokens(w, w', a) {
      assert SameTokens(w, w1, a);
    }
  }

  lemma StillPaid(w: World, w1: World, w': World, from: Address, need: nat)
    requires Separate(w, w.strategies) && RaisedExactly(w, w.strategies, need, w1)
    requires !HoldsFunds(w, w.strategies, from)
    requires w'.deployed == w1.deployed && w'.tracked == w1.tracked
    requires forall a :: a != w.self && a != from ==> Get(w'.token, a) == Get(w1.token, a)
    ensures forall i :: 0 <= i < |w.strategies| ==>
              w.strategies[i] in w'.deployed
              && PaidOut(w, w', w.strategies[i], Take(Quotes(w, w.strategies), need, i))
  {
    forall i | 0 <= i < |w.strategies|
      ensures w.strategies[i] in w'.deployed
              && PaidOut(w, w', w.strategies[i], Take(Quotes(w, w.strategies), need, i))
    {
      assert PaidOut(w, w1, w.strategies[i], Take(Quotes(w, w.strategies), need, i));
      FundsAccountApart(w, w.strategies[i]);
    }
  }
}
