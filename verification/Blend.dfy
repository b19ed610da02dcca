/** What holds of a Blend position: when the pool covers a withdrawal, how far rounding can
    leave the position behind the tracked balance, and what an emergency exit leaves. */
module Blend {
  import opened Arith
  import opened Balances
  import opened Positions

  // ------------------------------------------------------------------ what the pool accepts

  /** Burning for `amount` is possible exactly when the position is worth it. */
  lemma BurnCoveredIff(amount: nat, b: nat, r: Positive)
    ensures BTokensBurned(amount, r) <= b <==> amount * BLEND_RATE_SCALAR <= b * r
  {
    CeilBounds(amount * BLEND_RATE_SCALAR, r);
    if amount * BLEND_RATE_SCALAR <= b * r {
      CeilAtMost(amount * BLEND_RATE_SCALAR, r, b);
    } else if BTokensBurned(amount, r) <= b {
      MulLe(BTokensBurned(amount, r), b, r);
    }
  }

  /** The pool has `x` units that it was supplied with and has not lent out; what it has
      lent is rounded down. */
  predicate HasFree(p: Pool, x: int) {
    x * BLEND_RATE_SCALAR + p.dSupply * p.dRate - (p.dSupply * p.dRate) % BLEND_RATE_SCALAR <= p.bSupply * p.bRate
  }

  lemma HasFreeIff(p: Pool, x: int)
    ensures HasFree(p, x) <==> x <= FreeLiquidity(p)
  {
    FloorAtMostIff(p.bSupply * p.bRate, p.dSupply * p.dRate, x);
  }

  lemma FloorAtMostIff(supplied: int, lent: int, x: int)
    ensures x * BLEND_RATE_SCALAR + lent - lent % BLEND_RATE_SCALAR <= supplied
            <==> x <= supplied / BLEND_RATE_SCALAR - lent / BLEND_RATE_SCALAR
  {
  }

  /** What is free was supplied, so withdrawing it burns no more than there is. */
  lemma FreeIsSupplied(p: Pool, x: nat)
    requires x <= FreeLiquidity(p)
    ensures BTokensBurned(x, p.bRate) <= p.bSupply
  {
    MulLe(0, p.dSupply, p.dRate);
    HasFreeIff(p, x);
    BurnCoveredIff(x, p.bSupply, p.bRate);
  }

  /** A withdrawal within the tracked balance goes through exactly when the pool can be
      reached, it is no more than the pool position and the pool has it free. */
  lemma WithdrawAcceptedIff(s: Position, amount: int)
    requires 0 < amount <= s.tracked
    ensures BlendWithdraw(s, s.vault, amount).Ok?
            <==> s.pool.reachable && amount <= QueryPoolPosition(s) && amount <= FreeLiquidity(s.pool)
    ensures BlendWithdraw(s, s.vault, amount).Ok? ==> BlendWithdraw(s, s.vault, amount).value.1 == amount
  {
    var b, r := s.pool.collateral, s.pool.bRate;
    BurnCoveredIff(amount, b, r);
    MulLe(0, b, r);
    PositionCovers(amount, b * r);
    if amount <= FreeLiquidity(s.pool) { FreeIsSupplied(s.pool, amount); }
    if b == 0 { assert b * r == 0; }
  }

  lemma PositionCovers(amount: nat, worth: nat)
    ensures amount <= worth / BLEND_RATE_SCALAR <==> amount * BLEND_RATE_SCALAR <= worth
  {
  }

  // ------------------------------------------------------------------ the calls, in numbers

  /** The position is worth `x` units in a pool that can be reached and has them free. */
  predicate CanPayOut(p: Pool, x: nat) {
    p.reachable && x * BLEND_RATE_SCALAR <= p.collateral * p.bRate && HasFree(p, x)
  }

  lemma CanPayOutIff(p: Pool, x: nat)
    ensures WithdrawCollateral(p, x).Some? <==> CanPayOut(p, x)
  {
    BurnCoveredIff(x, p.collateral, p.bRate);
    HasFreeIff(p, x);
    if x <= FreeLiquidity(p) { FreeIsSupplied(p, x); }
  }

  /** A deposit is accepted from the vault while the strategy is not paused and its pool can
      be reached; it mints the b_tokens it pays for, rounded down. */
  lemma DepositIff(s: Position, caller: Address, amount: int)
    ensures BlendDeposit(s, caller, amount).Ok? <==>
              caller == s.vault && !s.paused && amount > 0 && s.pool.reachable
    ensures BlendDeposit(s, caller, amount).Ok? ==>
              var s' := BlendDeposit(s, caller, amount).value;
              var minted := s'.pool.collateral - s.pool.collateral;
              && minted * s.pool.bRate <= amount * BLEND_RATE_SCALAR < minted * s.pool.bRate + s.pool.bRate
              && s' == s.(tracked := s.tracked + amount,
                          pool := s.pool.(collateral := s'.pool.collateral, bSupply := s.pool.bSupply + minted))
  {
    if amount > 0 { FloorBounds(amount * BLEND_RATE_SCALAR, s.pool.bRate); }
  }

  /** A withdrawal is capped at the tracked balance and accepted from the vault when that is
      positive and the pool can pay it; it burns the b_tokens it costs, rounded up. */
  lemma WithdrawIff(s: Position, caller: Address, amount: int)
    ensures var x := if amount > s.tracked then s.tracked else amount;
            BlendWithdraw(s, caller, amount).Ok? <==> caller == s.vault && x > 0 && CanPayOut(s.pool, x)
    ensures BlendWithdraw(s, caller, amount).Ok? ==>
              var (s', x) := BlendWithdraw(s, caller, amount).value;
              var burned := s.pool.collateral - s'.pool.collateral;
              && x == (if amount > s.tracked then s.tracked else amount)
              && burned * s.pool.bRate - s.pool.bRate < x * BLEND_RATE_SCALAR <= burned * s.pool.bRate
              && s' == s.(tracked := s.tracked - x,
                          pool := s.pool.(collateral := s'.pool.collateral, bSupply := s.pool.bSupply - burned))
  {
    var x := if amount > s.tracked then s.tracked else amount;
    if x > 0 {
      CanPayOutIff(s.pool, x);
      CeilBounds(x * BLEND_RATE_SCALAR, s.pool.bRate);
    }
  }

  /** An emergency exit is accepted from the vault and from the admin when everything the
      position is worth is free, or there is nothing in it; from an unreachable pool only
      when nothing is tracked. */
  lemma EmergencyIff(s: Position, caller: Address, worth: nat)
    requires worth * BLEND_RATE_SCALAR <= s.pool.collateral * s.pool.bRate < (worth + 1) * BLEND_RATE_SCALAR
    ensures BlendEmergencyWithdraw(s, caller).Ok? <==>
              && (caller == s.vault || caller == s.admin)
              && (if s.pool.reachable then worth == 0 || HasFree(s.pool, worth) else s.tracked == 0)
    ensures BlendEmergencyWithdraw(s, caller).Ok? ==>
              var (s', x) := BlendEmergencyWithdraw(s, caller).value;
              s'.tracked == 0 && x == if s.pool.reachable then worth else 0
  {
    PositionWorth(s, worth);
    CanPayOutIff(s.pool, worth);
    if !s.pool.reachable && s.tracked > 0 { assert WithdrawCollateral(s.pool, s.tracked).None?; }
  }

  lemma PositionWorth(s: Position, worth: nat)
    requires worth * BLEND_RATE_SCALAR <= s.pool.collateral * s.pool.bRate < (worth + 1) * BLEND_RATE_SCALAR
    ensures s.pool.reachable ==> QueryPoolPosition(s) == worth
  {
    MulLe(0, s.pool.collateral, s.pool.bRate);
    PositionCovers(worth, s.pool.collateral * s.pool.bRate);
    PositionCovers(worth + 1, s.pool.collateral * s.pool.bRate);
  }

  /** Exactly the amounts the strategy quotes: up to two units less than is tracked and, of a
      pool that can be reached, two units less than it has free. */
  lemma QuotedIff(s: Position, x: nat)
    ensures x <= AvailableLiquidity(s) <==>
              x == 0 || (x + 2 <= s.tracked && (s.pool.reachable ==> HasFree(s.pool, x + 2)))
  {
    HasFreeIff(s.pool, x + 2);
  }

  // ------------------------------------------------------------------ rounding debt

  /** After `n` roundings the position falls short of the tracked balance by at most `n`
      b_tokens. */
  ghost predicate WithinDebt(s: Position, n: nat) {
    (s.pool.collateral + n) * s.pool.bRate >= s.tracked * BLEND_RATE_SCALAR
  }

  /** What can happen to a position: calls from the vault, and anything the pool's other
      users and its interest do to rates and supplies. */
  datatype Event =
    | Deposited(amount: int)
    | Withdrawn(amount: int)
    | Emergency(caller: Address)
    | PoolMoved(market: Market)

  function Next(s: Position, e: Event): Position {
    match e
    case Deposited(amount) => (match BlendDeposit(s, s.vault, amount) case Ok(s') => s' case Err(_) => s)
    case Withdrawn(amount) => (match BlendWithdraw(s, s.vault, amount) case Ok((s', _)) => s' case Err(_) => s)
    case Emergency(caller) => (match BlendEmergencyWithdraw(s, caller) case Ok((s', _)) => s' case Err(_) => s)
    case PoolMoved(market) => s.(pool := AtMarket(s.pool, market))
  }

  /** One rounding for every accepted deposit or withdrawal. */
  function Roundings(s: Position, e: Event): nat {
    match e
    case Deposited(amount) => if BlendDeposit(s, s.vault, amount).Ok? then 1 else 0
    case Withdrawn(amount) => if BlendWithdraw(s, s.vault, amount).Ok? then 1 else 0
    case _ => 0
  }

  function RunEvents(s: Position, events: seq<Event>): Position
    decreases |events|
  {
    if events == [] then s else RunEvents(Next(s, events[0]), events[1..])
  }

  function TotalRoundings(s: Position, events: seq<Event>): nat
    decreases |events|
  {
    if events == [] then 0 else Roundings(s, events[0]) + TotalRoundings(Next(s, events[0]), events[1..])
  }

  /** The rate only goes up. */
  ghost predicate RateNeverFalls(s: Position, events: seq<Event>)
    decreases |events|
  {
    events == [] ||
    (Next(s, events[0]).pool.bRate >= s.pool.bRate && RateNeverFalls(Next(s, events[0]), events[1..]))
  }

  lemma DepositDebt(b: nat, n: nat, r: Positive, tracked: nat, amount: nat)
    requires (b + n) * r >= tracked * BLEND_RATE_SCALAR
    ensures (b + BTokensMinted(amount, r) + (n + 1)) * r >= (tracked + amount) * BLEND_RATE_SCALAR
  {
  }

  lemma WithdrawDebt(b: nat, n: nat, r: Positive, tracked: nat, amount: nat)
    requires (b + n) * r >= tracked * BLEND_RATE_SCALAR
    requires BTokensBurned(amount, r) <= b && amount <= tracked
    ensures (b - BTokensBurned(amount, r) + (n + 1)) * r >= (tracked - amount) * BLEND_RATE_SCALAR
  {
  }

  lemma EventDebt(s: Position, e: Event, n: nat)
    requires WithinDebt(s, n) && Next(s, e).pool.bRate >= s.pool.bRate
    ensures WithinDebt(Next(s, e), n + Roundings(s, e))
  {
    hide FreeLiquidity, QueryPoolPosition;
    match e
    case Deposited(amount) =>
      if BlendDeposit(s, s.vault, amount).Ok? { DepositDebt(s.pool.collateral, n, s.pool.bRate, s.tracked, amount); }
    case Withdrawn(amount) =>
      if BlendWithdraw(s, s.vault, amount).Ok? {
        WithdrawDebt(s.pool.collateral, n, s.pool.bRate, s.tracked, if amount > s.tracked then s.tracked else amount);
      }
    case Emergency(caller) =>
      var s' := Next(s, e);
      if s' != s { assert s'.tracked == 0; MulLe(0, s'.pool.collateral + n, s'.pool.bRate); }
    case PoolMoved(market) =>
      MulLe(s.pool.bRate, market.bRate, s.pool.collateral + n);
  }

  /** Over any run at a rate that never falls, the shortfall is at most one b_token per
      accepted call. */
  lemma {:induction false} RoundingDebt(s: Position, events: seq<Event>, n: nat)
    requires WithinDebt(s, n) && RateNeverFalls(s, events)
    ensures WithinDebt(RunEvents(s, events), n + TotalRoundings(s, events))
    decreases |events|
  {
    if events != [] {
      EventDebt(s, events[0], n);
      RoundingDebt(Next(s, events[0]), events[1..], n + Roundings(s, events[0]));
    }
  }

  // ------------------------------------------------------------------ the other suppliers

  /** Only the strategy's own b_tokens and its record differ. */
  ghost predicate OthersUntouched(s: Position, s': Position) {
    && s'.pool.bSupply - s'.pool.collateral == s.pool.bSupply - s.pool.collateral
    && s'.pool == s.pool.(collateral := s'.pool.collateral, bSupply := s'.pool.bSupply)
    && s' == s.(tracked := s'.tracked, pool := s'.pool)
  }

  lemma CallLeavesOthers(s: Position, e: Event)
    requires !e.PoolMoved?
    ensures OthersUntouched(s, Next(s, e))
  {
    hide BTokensMinted, BTokensBurned, FreeLiquidity, QueryPoolPosition;
  }

  /** The strategy's calls never touch what others have in the pool, or its rates and loans,
      over any run in which the pool is left alone. */
  lemma {:induction false} CallsLeaveOthers(s: Position, events: seq<Event>)
    requires forall e :: e in events ==> !e.PoolMoved?
    ensures OthersUntouched(s, RunEvents(s, events))
    decreases |events|
  {
    hide Next;
    if events != [] {
      CallLeavesOthers(s, events[0]);
      CallsLeaveOthers(Next(s, events[0]), events[1..]);
    }
  }

  // ------------------------------------------------------------------ net flow

  /** Underlying moved into the position by one event, negative when it comes out. */
  function Flow(s: Position, e: Event): int {
    match e
    case Deposited(amount) => if BlendDeposit(s, s.vault, amount).Ok? then amount else 0
    case Withdrawn(amount) => (match BlendWithdraw(s, s.vault, amount) case Ok((_, x)) => -x case Err(_) => 0)
    case Emergency(caller) => (match BlendEmergencyWithdraw(s, caller) case Ok((_, x)) => -x case Err(_) => 0)
    case PoolMoved(_) => 0
  }

  function NetFlow(s: Position, events: seq<Event>): int
    decreases |events|
  {
    if events == [] then 0 else Flow(s, events[0]) + NetFlow(Next(s, events[0]), events[1..])
  }

  ghost predicate RateStays(s: Position, events: seq<Event>)
    decreases |events|
  {
    events == [] ||
    (Next(s, events[0]).pool.bRate == s.pool.bRate && RateStays(Next(s, events[0]), events[1..]))
  }

  /** Without emergency exits the tracked balance is exactly what went in less what came
      out, whatever the pool does. */
  lemma {:induction false} TrackedIsNetFlow(s: Position, events: seq<Event>)
    requires forall e :: e in events ==> !e.Emergency?
    ensures RunEvents(s, events).tracked == s.tracked + NetFlow(s, events)
    decreases |events|
  {
    if events != [] {
      TrackedIsNetFlow(Next(s, events[0]), events[1..]);
    }
  }

  /** What the position is worth is covered by `funded` units of underlying. */
  ghost predicate Covered(s: Position, funded: int) {
    s.pool.collateral * s.pool.bRate <= funded * BLEND_RATE_SCALAR
  }

  /** Rounding never pays the depositor: while the rate stands still no run of calls, with
      emergency exits or without, takes out more than `funded` plus what it put in, and
      the position left behind is covered by the difference. */
  lemma {:induction false} RoundingNeverPays(s: Position, events: seq<Event>, funded: int)
    requires Covered(s, funded) && RateStays(s, events)
    ensures Covered(RunEvents(s, events), funded + NetFlow(s, events)) && funded + NetFlow(s, events) >= 0
    decreases |events|
  {
    if events == [] {
      MulLe(0, s.pool.collateral, s.pool.bRate);
    } else {
      FlowCovers(s, events[0], funded);
      RoundingNeverPays(Next(s, events[0]), events[1..], funded + Flow(s, events[0]));
    }
  }

  lemma FlowCovers(s: Position, e: Event, funded: int)
    requires Covered(s, funded) && Next(s, e).pool.bRate == s.pool.bRate
    ensures Covered(Next(s, e), funded + Flow(s, e))
  {
    var b, r := s.pool.collateral, s.pool.bRate;
    match e
    case Deposited(amount) =>
      if BlendDeposit(s, s.vault, amount).Ok? { MintCovers(b, r, funded, amount); }
    case Withdrawn(amount) =>
      if BlendWithdraw(s, s.vault, amount).Ok? {
        BurnCovers(b, r, funded, if amount > s.tracked then s.tracked else amount);
      }
    case Emergency(_) =>
      if QueryPoolPosition(s) > 0 { BurnCovers(b, r, funded, QueryPoolPosition(s)); }
    case PoolMoved(_) =>
  }

  lemma MintCovers(b: nat, r: Positive, funded: int, amount: nat)
    requires b * r <= funded * BLEND_RATE_SCALAR
    ensures (b + BTokensMinted(amount, r)) * r <= (funded + amount) * BLEND_RATE_SCALAR
  {
    FloorBounds(amount * BLEND_RATE_SCALAR, r);
    assert (b + BTokensMinted(amount, r)) * r == b * r + BTokensMinted(amount, r) * r;
  }

  lemma BurnCovers(b: nat, r: Positive, funded: int, amount: nat)
    requires b * r <= funded * BLEND_RATE_SCALAR
    ensures (b - BTokensBurned(amount, r)) * r <= (funded - amount) * BLEND_RATE_SCALAR
  {
    CeilBounds(amount * BLEND_RATE_SCALAR, r);
    assert (b - BTokensBurned(amount, r)) * r == b * r - BTokensBurned(amount, r) * r;
  }

  // ------------------------------------------------------------------ the quote

  /** A margin that covers the roundings keeps the quote within the position's worth. */
  lemma MarginCovers(s: Position, n: nat)
    requires WithinDebt(s, n) && n * s.pool.bRate <= AVAILABLE_LIQUIDITY_ROUNDING_MARGIN * BLEND_RATE_SCALAR
    ensures AvailableLiquidity(s) <= QueryPoolPosition(s)
  {
    var b, r := s.pool.collateral, s.pool.bRate;
    assert (b + n) * r == b * r + n * r;
    MulLe(0, b, r);
    if AvailableLiquidity(s) > 0 { PositionCovers(AvailableLiquidity(s), b * r); }
  }

  /** As long as the debt fits the two-unit margin, whether an amount up to the quote is
      delivered in full depends only on the pool being reachable. */
  lemma QuoteIsHonestIff(s: Position, n: nat, amount: int)
    requires WithinDebt(s, n) && n * s.pool.bRate <= AVAILABLE_LIQUIDITY_ROUNDING_MARGIN * BLEND_RATE_SCALAR
    requires 0 < amount <= AvailableLiquidity(s)
    ensures BlendWithdraw(s, s.vault, amount).Ok? <==> s.pool.reachable
    ensures BlendWithdraw(s, s.vault, amount).Ok? ==> BlendWithdraw(s, s.vault, amount).value.1 == amount
  {
    var b, r := s.pool.collateral, s.pool.bRate;
    assert (b + n) * r == b * r + n * r;
    BurnCoveredIff(amount, b, r);
    WithdrawAcceptedIff(s, amount);
    MulLe(0, b, r);
    PositionCovers(amount, b * r);
  }

  /** From an empty position, through any run with few enough calls. */
  lemma QuoteIsHonestAfterRunIff(s: Position, events: seq<Event>, amount: int)
    requires s.tracked == 0 && RateNeverFalls(s, events)
    requires var end := RunEvents(s, events);
             && TotalRoundings(s, events) * end.pool.bRate <= AVAILABLE_LIQUIDITY_ROUNDING_MARGIN * BLEND_RATE_SCALAR
             && 0 < amount <= AvailableLiquidity(end)
    ensures var end := RunEvents(s, events);
            && (BlendWithdraw(end, end.vault, amount).Ok? <==> end.pool.reachable)
            && (BlendWithdraw(end, end.vault, amount).Ok? ==> BlendWithdraw(end, end.vault, amount).value.1 == amount)
  {
    MulLe(0, s.pool.collateral, s.pool.bRate);
    RoundingDebt(s, events, 0);
    QuoteIsHonestIff(RunEvents(s, events), TotalRoundings(s, events), amount);
  }

  /** When the quote as a whole can be withdrawn, exactly: the pool must be reachable and
      the margin must cover what rounding has cost, that is, the quote must not exceed the
      pool position. */
  lemma WholeQuoteWithdrawableIff(s: Position)
    requires AvailableLiquidity(s) > 0
    ensures BlendWithdraw(s, s.vault, AvailableLiquidity(s)).Ok?
            <==> s.pool.reachable && AvailableLiquidity(s) <= QueryPoolPosition(s)
  {
    WithdrawAcceptedIff(s, AvailableLiquidity(s));
  }

  /** A pool that cannot be reached is still quoted, at the tracked balance less the
      margin, and delivers nothing at all. */
  lemma UnreachableQuoteFails(s: Position, amount: int)
    requires !s.pool.reachable && s.tracked > AVAILABLE_LIQUIDITY_ROUNDING_MARGIN
    ensures AvailableLiquidity(s) == s.tracked - AVAILABLE_LIQUIDITY_ROUNDING_MARGIN > 0
    ensures BlendWithdraw(s, s.vault, amount).Err?
  {
  }

  /** The margin is not always enough: two deposits of four at a rate of 1.4 leave a
      quote of six and a position worth five. */
  lemma MarginCanBeTooSmall(vault: Address, pool: Address)
    ensures var s := Position(vault, vault, false, 0, Pool(pool, 1_400_000_000_000, 0, 1_000, 0, 0, true, true));
            var end := RunEvents(s, [Deposited(4), Deposited(4)]);
            && end.tracked == 8 && AvailableLiquidity(end) == 6 && QueryPoolPosition(end) == 5
            && BlendWithdraw(end, vault, AvailableLiquidity(end)).Err?
  {
  }

  // ------------------------------------------------------------------ emergency exit

  /** At a rate of at least one, withdrawing the whole quoted position burns exactly the
      b_tokens held. */
  lemma EmergencyBurnsAll(b: nat, r: Positive)
    requires r >= BLEND_RATE_SCALAR
    ensures BTokensBurned(b * r / BLEND_RATE_SCALAR, r) == b
  {
    MulLe(0, b, r);
    var p := b * r / BLEND_RATE_SCALAR;
    BurnCoveredIff(p, b, r);
    assert p * BLEND_RATE_SCALAR > b * r - r;
    CeilAtLeast(p * BLEND_RATE_SCALAR, r, b);
  }

  /** Exactly the rates at which an emergency exit never strands b_tokens. */
  lemma EmergencyLeavesNothingIff(r: Positive)
    ensures (forall b: nat :: BTokensBurned(b * r / BLEND_RATE_SCALAR, r) == b) <==> r >= BLEND_RATE_SCALAR
  {
    if r >= BLEND_RATE_SCALAR {
      forall b: nat ensures BTokensBurned(b * r / BLEND_RATE_SCALAR, r) == b { EmergencyBurnsAll(b, r); }
    } else {
      assert 1 * r / BLEND_RATE_SCALAR == 0;
      assert BTokensBurned(0, r) == 0;
      assert BTokensBurned(1 * r / BLEND_RATE_SCALAR, r) != 1;
    }
  }

  /** An emergency exit that goes through always clears the tracked balance.  If the pool
      can be reached it empties the position and returns the floor of what that is worth;
      if not, there was nothing tracked, and whatever the pool holds stays there. */
  lemma EmergencyEmptiesPosition(s: Position, caller: Address)
    requires s.pool.bRate >= BLEND_RATE_SCALAR && BlendEmergencyWithdraw(s, caller).Ok?
    ensures var (s', x) := BlendEmergencyWithdraw(s, caller).value;
            && s'.tracked == 0
            && (s.pool.reachable ==>
                  s'.pool.collateral == 0 && x == s.pool.collateral * s.pool.bRate / BLEND_RATE_SCALAR)
            && (!s.pool.reachable ==> s.tracked == 0 && x == 0 && s'.pool == s.pool)
  {
    EmergencyBurnsAll(s.pool.collateral, s.pool.bRate);
  }
}
