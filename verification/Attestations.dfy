/** Money that has been bridged away counts towards total assets for as long as the keeper's
    last attestation of it is fresh, and not a second longer. */
module Attestations {
  import opened Balances
  import opened Model
  import opened Accounting
  import opened Runs
  import opened Ownership

  /** An attestation by the keeper, of a balance that is not negative, is accepted ... */
  predicate Attests(w: World, step: Step) {
    step.AttestBy? && step.caller == w.settings.keeper && step.balance >= 0
  }

  /** ... and no other. */
  lemma AttestIff(w: World, caller: Address, balance: int)
    requires w.supply >= 0
    ensures AttestBridgedBalance(w, caller, balance).Ok? <==> Attests(w, AttestBy(caller, balance))
    ensures !Attests(w, AttestBy(caller, balance)) ==> Apply(w, AttestBy(caller, balance)) == w
  {
  }

  ghost predicate NoneAttested(w: World, steps: seq<Step>)
    requires Wf(w)
    decreases |steps|
  {
    steps == [] ||
    (!Attests(w, steps[0]) && (ApplyKeepsWf(w, steps[0]); NoneAttested(Apply(w, steps[0]), steps[1..])))
  }

  /** Seconds that pass in the steps. */
  function Elapsed(steps: seq<Step>): nat {
    if steps == [] then 0 else
    (if steps[0].TimePassed? then steps[0].seconds else 0) + Elapsed(steps[1..])
  }

  /** The maximum age in force after the steps. */
  function AgeLimit(limit: nat, steps: seq<Step>): nat
    decreases |steps|
  {
    if steps == [] then limit else
    AgeLimit(if steps[0].Administered? then steps[0].maxAge else limit, steps[1..])
  }

  /** What total assets count beyond idle funds and the records of strategies. */
  function CountedBeyond(w: World): int {
    TotalAssets(w) - Idle(w) - TrackedSum(w.strategies, w.tracked)
  }

  lemma {:induction false} NothingElseAttests(w: World, steps: seq<Step>)
    requires Wf(w) && NoneAttested(w, steps)
    ensures var end := Run(w, steps);
            && end.bridged == w.bridged && end.bridgedAt == w.bridgedAt
            && end.now == w.now + Elapsed(steps)
            && end.settings.bridgedMaxAge == AgeLimit(w.settings.bridgedMaxAge, steps)
    decreases |steps|
  {
    hide Apply;
    if steps != [] {
      ApplyKeepsWf(w, steps[0]);
      ClockStep(w, steps[0]);
      NothingElseAttests(Apply(w, steps[0]), steps[1..]);
    }
  }

  lemma ClockStep(w: World, step: Step)
    requires Wf(w) && !Attests(w, step)
    ensures var w' := Apply(w, step);
            && w'.bridged == w.bridged && w'.bridgedAt == w.bridgedAt
            && w'.now == w.now + Elapsed([step])
            && w'.settings.bridgedMaxAge == AgeLimit(w.settings.bridgedMaxAge, [step])
  {
    StepKeepsTheRest(w, step);
    assert [step][1..] == [];
    if step.AttestBy? { AttestIff(w, step.caller, step.balance); }
  }

  /** After an accepted attestation with none since, whatever else has happened, total
      assets count the attested balance beyond idle funds and records while no more time has
      passed than the maximum age now in force, and nothing at all afterwards. */
  lemma AttestationCountsIff(w: World, caller: Address, balance: int, steps: seq<Step>)
    requires Wf(w) && Attests(w, AttestBy(caller, balance))
    requires Wf(Apply(w, AttestBy(caller, balance))) && NoneAttested(Apply(w, AttestBy(caller, balance)), steps)
    ensures var end := Run(Apply(w, AttestBy(caller, balance)), steps);
            var current := Elapsed(steps) <= AgeLimit(w.settings.bridgedMaxAge, steps);
            && (CountedBeyond(end) == balance <==> current || balance == 0)
            && (CountedBeyond(end) == 0 <==> !current || balance == 0)
  {
    var w1 := Apply(w, AttestBy(caller, balance));
    NothingElseAttests(w1, steps);
  }

  /** Without an attestation since initialisation nothing is ever counted. */
  lemma UnattestedCountsNothing(w: World, steps: seq<Step>)
    requires Wf(w) && w.bridged == 0 && NoneAttested(w, steps)
    ensures CountedBeyond(Run(w, steps)) == 0
  {
    NothingElseAttests(w, steps);
  }
}
