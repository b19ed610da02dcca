/** Two short histories of a vault, from its initialisation on, in which a promise about it
    does not hold: collecting fees lowers the mark, and a sole holder cannot redeem. */
module Histories {
  import opened Arith
  import opened Balances
  import opened Results
  import opened Shares
  import opened Fees
  import opened Strategies
  import opened Model
  import opened Accounting
  import opened Runs
  import opened Ledgers
  import opened Exit

  const VAULT: Address := 1
  const ADMIN: Address := 2
  const KEEPER: Address := 3
  const GUARDIAN: Address := 4
  const RECIPIENT: Address := 5
  const ALICE: Address := 6
  const STRATEGY: Address := 7

  /** The step takes `w` to `w1`, at no loss. */
  ghost predicate Takes(w: World, step: Step, w1: World) {
    w.supply >= 0 && LossFree(w, step) && Apply(w, step) == w1
  }

  lemma RunNone(w: World)
    requires Wf(w)
    ensures Run(w, []) == w && LossFreeRun(w, [])
  {
  }

  lemma RunOn(w: World, step: Step, w1: World, rest: seq<Step>, end: World)
    requires Wf(w) && Takes(w, step, w1)
    requires Wf(w1) ==> Run(w1, rest) == end && LossFreeRun(w1, rest)
    ensures Run(w, [step] + rest) == end && LossFreeRun(w, [step] + rest)
  {
    ApplyKeepsWf(w, step);
    assert ([step] + rest)[1..] == rest;
  }

  lemma FourSteps(w: World, s0: Step, w1: World, s1: Step, w2: World, s2: Step, w3: World, s3: Step, w4: World)
    requires Wf(w) && Takes(w, s0, w1) && Takes(w1, s1, w2) && Takes(w2, s2, w3) && Takes(w3, s3, w4)
    ensures Run(w, [s0, s1, s2, s3]) == w4 && LossFreeRun(w, [s0, s1, s2, s3]) && Wf(w4)
  {
    hide Takes, Wf, Run, LossFreeRun;
    assert [s0] + [s1, s2, s3] == [s0, s1, s2, s3] && [s1] + [s2, s3] == [s1, s2, s3] && [s2] + [s3] == [s2, s3];
    assert [s3] + [] == [s3];
    TakesKeepsWf(w, s0, w1);
    TakesKeepsWf(w1, s1, w2);
    TakesKeepsWf(w2, s2, w3);
    TakesKeepsWf(w3, s3, w4);
    RunNone(w4);
    RunOn(w3, s3, w4, [], w4);
    RunOn(w2, s2, w3, [s3], w4);
    RunOn(w1, s1, w2, [s2, s3], w4);
    RunOn(w, s0, w1, [s1, s2, s3], w4);
  }

  lemma TakesKeepsWf(w: World, step: Step, w1: World)
    requires Wf(w) && Takes(w, step, w1)
    ensures Wf(w1)
  {
    ApplyKeepsWf(w, step);
  }

  // ------------------------------------------------------------------ a falling mark

  /** A vault at the highest fee rate, with no strategies. */
  function MarkVault(token: Table, shares: Table, supply: int, hwm: int): World {
    World(0, token, map[], VAULT,
          Settings(ADMIN, KEEPER, GUARDIAN, RECIPIENT, MAX_PERFORMANCE_FEE_BPS, 0, false, 0, DEFAULT_BRIDGED_MAX_AGE),
          [], map[], supply, shares, hwm, 0, 0)
  }

  const MarkStart := MarkVault(map[ALICE := 1_000_000], map[], 0, NAV_PRECISION)
  const MarkDeposited := MarkVault(map[ALICE := 999_999, VAULT := 1], map[ALICE := 1], 1, NAV_PRECISION)
  const MarkDonated := MarkVault(map[ALICE := 0, VAULT := 1_000_000], map[ALICE := 1], 1, NAV_PRECISION)
  const MarkCharged :=
    MarkVault(map[ALICE := 0, VAULT := 1_000_000], map[ALICE := 1, RECIPIENT := 149_999], 150_000, 66_666_666)
  const MarkEnd :=
    MarkVault(map[ALICE := 0, VAULT := 739_133, RECIPIENT := 260_867], map[ALICE := 1, RECIPIENT := 0], 1, 66_666_666)

  lemma MarkDeposit()
    ensures Takes(MarkStart, DepositBy(ALICE, 1), MarkDeposited)
  {
    assert TotalAssets(MarkStart) == 0;
    assert Deposit(MarkStart, ALICE, 1) == Issue(MarkStart, ALICE, 1, 1);
    MarkIssue();
  }

  lemma MarkIssue()
    ensures Issue(MarkStart, ALICE, 1, 1) == Ok((MarkDeposited, 1))
  {
    var token: Table := map[ALICE := 1_000_000];
    var shares: Table := map[];
    assert token[ALICE := 999_999][VAULT := 1] == MarkDeposited.token;
    assert shares[ALICE := 1] == MarkDeposited.shares;
  }

  lemma MarkDonation()
    ensures Takes(MarkDeposited, TokensSent(ALICE, VAULT, 999_999), MarkDonated)
  {
  }

  lemma MarkFee()
    ensures Takes(MarkDonated, FeesCollected, MarkCharged)
  {
    hide FeeFor;
    MarkFeeNumbers();
    assert TotalAssets(MarkDonated) == 1_000_000;
    assert map[ALICE := 1][RECIPIENT := 149_999] == MarkCharged.shares;
  }

  lemma MarkFeeNumbers()
    ensures FeeFor(1_000_000, 1, NAV_PRECISION, MAX_PERFORMANCE_FEE_BPS) == Fee(299_999, 149_999, 66_666_666)
  {
  }

  lemma MarkRedemption()
    ensures Takes(MarkCharged, RedeemBy(RECIPIENT, 149_999), MarkEnd)
  {
    hide AssetsFor;
    MarkPayoutNumbers();
    assert TotalAssets(MarkCharged) == 1_000_000;
    assert Redeem(MarkCharged, RECIPIENT, 149_999) == PayOut(MarkCharged, RECIPIENT, 149_999, 260_867);
    MarkPayout();
  }

  lemma MarkPayoutNumbers()
    ensures AssetsFor(149_999, 1_000_000, 150_000) == 260_867
  {
  }

  lemma MarkPayout()
    ensures PayOut(MarkCharged, RECIPIENT, 149_999, 260_867) == Ok((MarkEnd, 260_867))
  {
    assert MarkCharged.token[VAULT := 739_133][RECIPIENT := 260_867] == MarkEnd.token;
    assert MarkCharged.shares[RECIPIENT := 0] == MarkEnd.shares;
  }

  lemma MarkFalls()
    ensures CollectFees(MarkEnd).Ok? && CollectFees(MarkEnd).value.0.hwm == 57_971_215 < MarkEnd.hwm
  {
  }

  lemma MarkStarts()
    ensures Initialize(0, map[ALICE := 1_000_000], map[], VAULT, ADMIN, KEEPER, GUARDIAN, RECIPIENT,
                       MAX_PERFORMANCE_FEE_BPS, 0) == Ok(MarkStart)
    ensures Wf(MarkStart)
  {
  }

  /** Alice deposits one unit and sends the rest; a fee is collected and its recipient
      redeems: within that loss-free run from initialisation, another collection lowers
      the mark. */
  lemma MarkFallsInARun()
    ensures Initialize(0, map[ALICE := 1_000_000], map[], VAULT, ADMIN, KEEPER, GUARDIAN, RECIPIENT,
                       MAX_PERFORMANCE_FEE_BPS, 0) == Ok(MarkStart)
    ensures var steps :=
              [DepositBy(ALICE, 1), TokensSent(ALICE, VAULT, 999_999), FeesCollected, RedeemBy(RECIPIENT, 149_999)];
            && Wf(MarkStart) && LossFreeRun(MarkStart, steps)
            && Run(MarkStart, steps) == MarkEnd
            && CollectFees(MarkEnd).Ok? && CollectFees(MarkEnd).value.0.hwm < MarkEnd.hwm
  {
    hide Takes, CollectFees, Initialize, Wf, Run, LossFreeRun, MarkVault;
    MarkStarts();
    MarkDeposit();
    MarkDonation();
    MarkFee();
    MarkRedemption();
    FourSteps(MarkStart, DepositBy(ALICE, 1), MarkDeposited, TokensSent(ALICE, VAULT, 999_999), MarkDonated,
              FeesCollected, MarkCharged, RedeemBy(RECIPIENT, 149_999), MarkEnd);
    MarkFalls();
  }

  // ------------------------------------------------------------------ ... at every small supply

  /** The same vault, with money attested as bridged. */
  function SmallVault(token: Table, shares: Table, supply: int, hwm: int, bridged: nat): World {
    MarkVault(token, shares, supply, hwm).(bridged := bridged)
  }

  /** What collecting the first fee mints, and the mark it leaves. */
  function FirstFeeQuote(s: nat): FeeQuote {
    FeeFor(FirstAssets(s), s, NAV_PRECISION, MAX_PERFORMANCE_FEE_BPS)
  }

  function Offset(s: nat): nat {
    s + VIRTUAL_SHARES_OFFSET
  }

  function FirstAssets(s: nat): nat {
    100 * (Offset(s) * Offset(s))
  }

  /** The numbers of the history: the first fee shares `f` and mark `h`, what `f` redeems
      for once nothing is attested, and the assets above the mark. */
  ghost predicate SmallNumbers(s: nat, f: nat, h: nat, r: nat, a: nat) {
    && s > 0 && 1 <= f <= Offset(s)
    && (var q := FirstFeeQuote(s); q.Fee? && q.shares == f && q.hwm == h)
    && AssetsFor(f, Offset(s), s + f) == r && 1 <= r <= Offset(s)
    && h >= NAV_PRECISION && a >= Offset(s) && !KeepsMark(a, s, h, MAX_PERFORMANCE_FEE_BPS)
  }

  lemma SmallNumbersExist(s: nat) returns (f: nat, h: nat, r: nat, a: nat)
    requires s > 0 && 7 * s + 10 < 3 * VIRTUAL_SHARES_OFFSET
    ensures SmallNumbers(s, f, h, r, a)
  {
    hide FeeFor, KeepsMark, SharesFor, JustAbove;
    HighFirstMark(s, Offset(s), FirstAssets(s));
    f, h := FirstFeeQuote(s).shares, FirstFeeQuote(s).hwm;
    MarkCanFall(s, h);
    a := JustAbove(s, h);
    SmallPayout(s, f, Offset(s));
    r := AssetsFor(f, Offset(s), s + f);
  }

  lemma SmallPayout(s: nat, f: nat, k: nat)
    requires 1 <= f <= k && k == s + VIRTUAL_SHARES_OFFSET
    ensures 1 <= AssetsFor(f, k, s + f) <= k
  {
    var x, y := k + VIRTUAL_SHARES_OFFSET, k + f;
    MulLe(0, f, x);
    assert f * x == f * k + f * VIRTUAL_SHARES_OFFSET;
    MulLe(1, f, k);
    FloorAtLeast(f * x, y, 1);
    MulLe(f, k, VIRTUAL_SHARES_OFFSET);
    MulLe(VIRTUAL_SHARES_OFFSET, k, k);
    assert k * y == k * k + k * f;
    FloorAtMost(f * x, y, k);
  }

  function SmallStart(s: nat): World {
    SmallVault(map[ALICE := Offset(s)], map[], 0, NAV_PRECISION, 0)
  }

  function SmallDeposited(s: nat): World {
    SmallVault(map[ALICE := VIRTUAL_SHARES_OFFSET, VAULT := s], map[ALICE := s], s, NAV_PRECISION, 0)
  }

  function SmallDonated(s: nat, bridged: nat): World {
    SmallVault(map[ALICE := 0, VAULT := Offset(s)], map[ALICE := s], s, NAV_PRECISION, bridged)
  }

  function SmallCharged(s: nat, f: nat, h: nat, bridged: nat): World {
    SmallVault(map[ALICE := 0, VAULT := Offset(s)], map[ALICE := s, RECIPIENT := f], s + f, h, bridged)
  }

  function SmallRedeemed(s: nat, h: nat, r: nat, bridged: nat): World
    requires r <= Offset(s)
  {
    SmallVault(map[ALICE := 0, VAULT := Offset(s) - r, RECIPIENT := r], map[ALICE := s, RECIPIENT := 0], s, h, bridged)
  }

  lemma SmallDeposit(s: nat)
    requires s > 0
    ensures Takes(SmallStart(s), DepositBy(ALICE, s), SmallDeposited(s))
  {
    hide Deposit, Issue;
    SmallPriced(s);
    SmallIssue(s);
  }

  lemma SmallPriced(s: nat)
    requires s > 0
    ensures Deposit(SmallStart(s), ALICE, s) == Issue(SmallStart(s), ALICE, s, s)
  {
    hide SharesFor, AssetsFor, Issue, TotalAssets, Offset;
    SmallEmpty(s);
    RoundTripFreeAtPar(s, 0);
  }

  lemma SmallEmpty(s: nat)
    ensures TotalAssets(SmallStart(s)) == 0
  {
  }

  lemma SmallIssue(s: nat)
    ensures Issue(SmallStart(s), ALICE, s, s) == Ok((SmallDeposited(s), s))
  {
    var token: Table := map[ALICE := Offset(s)];
    var shares: Table := map[];
    assert token[ALICE := VIRTUAL_SHARES_OFFSET][VAULT := s] == SmallDeposited(s).token;
    assert shares[ALICE := s] == SmallDeposited(s).shares;
  }

  lemma SmallDonation(s: nat)
    ensures Takes(SmallDeposited(s), TokensSent(ALICE, VAULT, VIRTUAL_SHARES_OFFSET), SmallDonated(s, 0))
  {
    assert SmallDeposited(s).token[ALICE := 0][VAULT := Offset(s)] == SmallDonated(s, 0).token;
  }

  lemma SmallAttested(s: nat)
    requires FirstAssets(s) >= Offset(s)
    ensures Takes(SmallDonated(s, 0), AttestBy(KEEPER, FirstAssets(s) - Offset(s)),
                  SmallDonated(s, FirstAssets(s) - Offset(s)))
  {
  }

  lemma SmallFee(s: nat, f: nat, h: nat, r: nat, a: nat)
    requires SmallNumbers(s, f, h, r, a) && FirstAssets(s) >= Offset(s)
    ensures Takes(SmallDonated(s, FirstAssets(s) - Offset(s)), FeesCollected,
                  SmallCharged(s, f, h, FirstAssets(s) - Offset(s)))
  {
    hide FeeFor, KeepsMark, AssetsFor;
    var w := SmallDonated(s, FirstAssets(s) - Offset(s));
    assert TotalAssets(w) == FirstAssets(s);
    assert w.shares[RECIPIENT := f] == SmallCharged(s, f, h, 0).shares;
  }

  lemma SmallUnattested(s: nat, f: nat, h: nat, bridged: nat)
    ensures Apply(SmallCharged(s, f, h, bridged), AttestBy(KEEPER, 0)) == SmallCharged(s, f, h, 0)
  {
  }

  lemma SmallRedemption(s: nat, f: nat, h: nat, r: nat, a: nat)
    requires SmallNumbers(s, f, h, r, a)
    ensures Apply(SmallCharged(s, f, h, 0), RedeemBy(RECIPIENT, f)) == SmallRedeemed(s, h, r, 0)
  {
    hide FeeFor, KeepsMark, AssetsFor;
    var w := SmallCharged(s, f, h, 0);
    assert TotalAssets(w) == Offset(s);
    assert Redeem(w, RECIPIENT, f) == PayOut(w, RECIPIENT, f, r);
    SmallPaid(s, f, h, r);
  }

  lemma SmallPaid(s: nat, f: nat, h: nat, r: nat)
    requires r <= Offset(s)
    ensures PayOut(SmallCharged(s, f, h, 0), RECIPIENT, f, r) == Ok((SmallRedeemed(s, h, r, 0), r))
  {
    var w := SmallCharged(s, f, h, 0);
    assert w.token[VAULT := Offset(s) - r][RECIPIENT := r] == SmallRedeemed(s, h, r, 0).token;
    assert w.shares[RECIPIENT := 0] == SmallRedeemed(s, h, r, 0).shares;
  }

  lemma SmallRaised(s: nat, h: nat, r: nat, bridged: nat)
    requires r <= Offset(s)
    ensures Apply(SmallRedeemed(s, h, r, 0), AttestBy(KEEPER, bridged)) == SmallRedeemed(s, h, r, bridged)
  {
  }

  lemma SmallFalls(s: nat, f: nat, h: nat, r: nat, a: nat)
    requires SmallNumbers(s, f, h, r, a)
    ensures var w := SmallRedeemed(s, h, r, a - (Offset(s) - r)); w.supply == s && LowersMark(w)
  {
    hide FeeFor, AssetsFor;
    assert TotalAssets(SmallRedeemed(s, h, r, a - (Offset(s) - r))) == a;
  }

  /** Collecting fees now lowers the mark. */
  predicate LowersMark(w: World) {
    w.supply >= 0 && CollectFees(w).Ok? && CollectFees(w).value.0.hwm < w.hwm
  }

  /** A vault as `initialize` leaves it, on a ledger whose contracts are apart. */
  ghost predicate Fresh(w: World) {
    && Apart(w.self, w.deployed)
    && Initialize(w.now, w.token, w.deployed, w.self, w.settings.admin, w.settings.keeper, w.settings.guardian,
                  w.settings.feeRecipient, w.settings.feeBps, w.settings.bufferBps) == Ok(w)
  }

  /** The run ends with the supply `s`, where collecting fees lowers the mark. */
  ghost predicate FallsAfter(w: World, steps: seq<Step>, s: nat) {
    Fresh(w) && Wf(w) && Run(w, steps).supply == s && LowersMark(Run(w, steps))
  }

  lemma SmallStarts(s: nat)
    ensures Fresh(SmallStart(s)) && Wf(SmallStart(s))
  {
  }

  /** Alice deposits `s` and sends the offset; the keeper attests a fortune and a fee is
      collected; the keeper withdraws the attestation, the fee recipient redeems, and the
      keeper attests what puts the price just above the mark. */
  lemma SmallHistory(s: nat) returns (steps: seq<Step>)
    requires s > 0 && 7 * s + 10 < 3 * VIRTUAL_SHARES_OFFSET
    ensures FallsAfter(SmallStart(s), steps, s)
  {
    hide Takes, Apply, LowersMark, Fresh, Wf, SmallNumbers, FirstAssets, MarkVault;
    var f, h, r, a := SmallNumbersExist(s);
    SmallBounds(s, f, h, r, a);
    var x := FirstAssets(s) - Offset(s);
    SmallStarts(s);
    SmallDeposit(s);
    SmallDonation(s);
    SmallAttested(s);
    SmallFee(s, f, h, r, a);
    FourSteps(SmallStart(s), DepositBy(ALICE, s), SmallDeposited(s), TokensSent(ALICE, VAULT, VIRTUAL_SHARES_OFFSET),
              SmallDonated(s, 0), AttestBy(KEEPER, x), SmallDonated(s, x), FeesCollected, SmallCharged(s, f, h, x));
    var first :=
      [DepositBy(ALICE, s), TokensSent(ALICE, VAULT, VIRTUAL_SHARES_OFFSET), AttestBy(KEEPER, x), FeesCollected];
    SmallUnattested(s, f, h, x);
    OneMoreStep(SmallStart(s), first, AttestBy(KEEPER, 0));
    SmallRedemption(s, f, h, r, a);
    OneMoreStep(SmallStart(s), first + [AttestBy(KEEPER, 0)], RedeemBy(RECIPIENT, f));
    SmallRaised(s, h, r, a - (Offset(s) - r));
    OneMoreStep(SmallStart(s), first + [AttestBy(KEEPER, 0)] + [RedeemBy(RECIPIENT, f)],
                AttestBy(KEEPER, a - (Offset(s) - r)));
    SmallFalls(s, f, h, r, a);
    steps := first + [AttestBy(KEEPER, 0)] + [RedeemBy(RECIPIENT, f)] + [AttestBy(KEEPER, a - (Offset(s) - r))];
  }

  lemma SmallBounds(s: nat, f: nat, h: nat, r: nat, a: nat)
    requires SmallNumbers(s, f, h, r, a)
    ensures r <= Offset(s) <= a && Offset(s) <= FirstAssets(s)
  {
    MulLe(1, Offset(s), Offset(s));
  }

  /** Exactly the supplies at which some vault can have its mark lowered, by some run since
      its initialisation. */
  lemma MarkFallsAtSupplyIff(s: nat)
    requires s > 0
    ensures (exists w, steps :: FallsAfter(w, steps, s)) <==> 7 * s + 10 < 3 * VIRTUAL_SHARES_OFFSET
  {
    if 7 * s + 10 < 3 * VIRTUAL_SHARES_OFFSET {
      var steps := SmallHistory(s);
    } else {
      forall w, steps ensures !FallsAfter(w, steps, s) {
        if FallsAfter(w, steps, s) { NoFallAfter(w, steps, s); }
      }
    }
  }

  lemma NoFallAfter(w: World, steps: seq<Step>, s: nat)
    requires Wf(w) && Run(w, steps).supply == s && 7 * s + 10 >= 3 * VIRTUAL_SHARES_OFFSET
    ensures !LowersMark(Run(w, steps))
  {
    RunKeepsWf(w, steps);
    CannotLower(Run(w, steps));
  }

  lemma CannotLower(w: World)
    requires Wf(w) && 7 * w.supply + 10 >= 3 * VIRTUAL_SHARES_OFFSET
    ensures !LowersMark(w)
  {
    hide FeeFor;
    if CollectFees(w).Ok? { MarkNeverFalls(TotalAssets(w), w.supply, w.hwm, w.settings.feeBps); }
  }

  // ------------------------------------------------------------------ a refused exit

  /** A vault without fees or buffer, and one self-contained strategy. */
  function LossVault(token: Table, balance: int, strategies: seq<Address>, tracked: Table, shares: Table, supply: int)
    : World
  {
    World(0, token, map[STRATEGY := Mock(VAULT, balance, true)], VAULT,
          Settings(ADMIN, KEEPER, GUARDIAN, RECIPIENT, 0, 0, false, 0, DEFAULT_BRIDGED_MAX_AGE),
          strategies, tracked, supply, shares, NAV_PRECISION, 0, 0)
  }

  const LossStart := LossVault(map[ALICE := 1_000_000], 0, [], map[], map[], 0)
  const LossDeposited :=
    LossVault(map[ALICE := 0, VAULT := 1_000_000], 0, [], map[], map[ALICE := 1_000_000], 1_000_000)
  const LossListed :=
    LossVault(map[ALICE := 0, VAULT := 1_000_000], 0, [STRATEGY], map[STRATEGY := 0], map[ALICE := 1_000_000],
              1_000_000)
  const LossAllocated :=
    LossVault(map[ALICE := 0, VAULT := 500_000, STRATEGY := 500_000], 500_000, [STRATEGY], map[STRATEGY := 500_000],
              map[ALICE := 1_000_000], 1_000_000)
  const LossSuffered := LossAllocated.(deployed := map[STRATEGY := Mock(VAULT, 0, true)])
  const LossEnd := LossSuffered.(tracked := map[STRATEGY := 0])

  lemma LossDeposit()
    ensures Takes(LossStart, DepositBy(ALICE, 1_000_000), LossDeposited)
  {
    assert TotalAssets(LossStart) == 0;
    assert Deposit(LossStart, ALICE, 1_000_000) == Issue(LossStart, ALICE, 1_000_000, 1_000_000);
    LossIssue();
  }

  lemma LossIssue()
    ensures Issue(LossStart, ALICE, 1_000_000, 1_000_000) == Ok((LossDeposited, 1_000_000))
  {
    var token: Table := map[ALICE := 1_000_000];
    var shares: Table := map[];
    assert token[ALICE := 0][VAULT := 1_000_000] == LossDeposited.token;
    assert shares[ALICE := 1_000_000] == LossDeposited.shares;
  }

  lemma LossListing()
    ensures Takes(LossDeposited, AddBy(ADMIN, STRATEGY), LossListed)
  {
    var tracked: Table := map[];
    assert tracked[STRATEGY := 0] == LossListed.tracked;
  }

  lemma LossAllocation()
    ensures Takes(LossListed, AllocateBy(KEEPER, STRATEGY, 500_000), LossAllocated)
  {
    var token: Table := map[ALICE := 0, VAULT := 1_000_000];
    assert token[VAULT := 500_000][STRATEGY := 500_000] == LossAllocated.token;
    assert MinIdle(LossListed) == 0;
    assert Allocate(LossListed, KEEPER, STRATEGY, 500_000) == Fund(LossListed, STRATEGY, 500_000);
  }

  lemma LossOccurs()
    ensures Takes(LossAllocated, YieldAccrued(STRATEGY, -500_000, 0), LossSuffered)
  {
    assert LossAllocated.token[STRATEGY := 500_000] == LossAllocated.token;
  }

  /** The emergency pull finds nothing, and writes the strategy off. */
  lemma LossWrittenOff()
    requires Wf(LossSuffered)
    ensures Apply(LossSuffered, EmergencyBy(ADMIN, STRATEGY)) == LossEnd
    ensures WritesOff(LossSuffered, EmergencyBy(ADMIN, STRATEGY))
  {
  }

  lemma LossStarts()
    ensures Initialize(0, map[ALICE := 1_000_000], map[STRATEGY := Mock(VAULT, 0, true)], VAULT, ADMIN, KEEPER,
                       GUARDIAN, RECIPIENT, 0, 0) == Ok(LossStart)
    ensures Wf(LossStart)
  {
  }

  lemma LossRefused()
    requires Wf(LossEnd)
    ensures AssetsFor(1_000_000, TotalAssets(LossEnd), LossEnd.supply) == 750_000 > TotalAssets(LossEnd) == 500_000
    ensures Redeem(LossEnd, ALICE, 1_000_000) == Err(InsufficientAssets)
  {
    assert Registered(LossEnd) && SelfContained(LossEnd) && Exact(LossEnd);
    assert AgreeAt(LossEnd, STRATEGY);
    assert TrackedSum([STRATEGY], map[STRATEGY := 0]) == 0;
    HolderExitIff(LossEnd, ALICE, 1_000_000);
  }

  /** Alice deposits a million, half of it is allocated and lost, and an emergency pull
      writes that off: she is quoted 750000 for all shares, with 500000 there, and the
      redemption is refused. */
  lemma ExitRefusedInARun()
    ensures Initialize(0, map[ALICE := 1_000_000], map[STRATEGY := Mock(VAULT, 0, true)], VAULT, ADMIN, KEEPER,
                       GUARDIAN, RECIPIENT, 0, 0) == Ok(LossStart)
    ensures var steps := [DepositBy(ALICE, 1_000_000), AddBy(ADMIN, STRATEGY), AllocateBy(KEEPER, STRATEGY, 500_000),
                          YieldAccrued(STRATEGY, -500_000, 0)] + [EmergencyBy(ADMIN, STRATEGY)];
            && Wf(LossStart) && Run(LossStart, steps) == LossEnd
            && Redeem(LossEnd, ALICE, 1_000_000) == Err(InsufficientAssets)
  {
    hide Takes, Redeem, Initialize, Wf, Run, LossVault;
    LossStarts();
    LossDeposit();
    LossListing();
    LossAllocation();
    LossOccurs();
    FourSteps(LossStart, DepositBy(ALICE, 1_000_000), LossDeposited, AddBy(ADMIN, STRATEGY), LossListed,
              AllocateBy(KEEPER, STRATEGY, 500_000), LossAllocated, YieldAccrued(STRATEGY, -500_000, 0), LossSuffered);
    LossWrittenOff();
    OneMoreStep(LossStart, [DepositBy(ALICE, 1_000_000), AddBy(ADMIN, STRATEGY), AllocateBy(KEEPER, STRATEGY, 500_000),
                            YieldAccrued(STRATEGY, -500_000, 0)], EmergencyBy(ADMIN, STRATEGY));
    LossRefused();
  }

  lemma {:induction false} OneMoreStep(w: World, steps: seq<Step>, last: Step)
    requires Wf(w)
    ensures Wf(Run(w, steps)) && Wf(Apply(Run(w, steps), last))
    ensures Run(w, steps + [last]) == Apply(Run(w, steps), last)
    decreases |steps|
  {
    if steps == [] {
      ApplyKeepsWf(w, last);
      assert [] + [last] == [last] && [last][1..] == [];
    } else {
      ApplyKeepsWf(w, steps[0]);
      OneMoreStep(Apply(w, steps[0]), steps[1..], last);
      assert (steps + [last])[0] == steps[0] && (steps + [last])[1..] == steps[1..] + [last];
    }
  }
}
