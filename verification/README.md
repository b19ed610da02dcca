# Tezoro vault: accounting model and proofs

A Dafny model of the Tezoro yield vault on Stellar, its strategies and its keeper, with machine-checked proofs of what the
accounting promises to share holders. `dafny verify dfyconfig.toml` checks the whole project.

The state is one shared ledger (`Model.World`): the underlying asset's balances, the deployed strategy contracts, and the
vault's storage. A strategy is either one that holds its deposits itself or one that lends them through a pool of its own, with
quotes below its record when the pool is short of free funds. Every vault call is a function of that state returning either the
new state and a result, or an error and no new state, because the host undoes a failing transaction. The contracts themselves
are classes that update their storage in place, with the loops the source has; each entry point is proved to have exactly the
outcome the model gives, including the roll-back of a redemption that fails after drawing on strategies.

| file | contents |
|---|---|
| `Arith.dfy`, `Balances.dfy`, `Results.dfy` | truncating division as products; balance tables and their sums; outcomes of calls |
| `Shares.dfy`, `Fees.dfy` | share pricing and performance fees as arithmetic on total assets and supply |
| `Positions.dfy`, `Strategies.dfy` | the Blend strategy's position in its pool; both kinds of strategy and the tokens their calls move |
| `Model.dfy` | the ledger state and the effect of every call |
| `Accounting.dfy` | the invariant that no call breaks, and what each call does to assets, supply and tokens |
| `Calls.dfy` | when each call goes through, and everything that is different afterwards |
| `Greedy.dfy` | the redemption waterfall against a closed-form greedy account |
| `Runs.dfy`, `Ledgers.dfy` | whole runs: solvency, price, conservation, agreement of the ledgers |
| `Ownership.dfy`, `Attestations.dfy` | who can change what over whole runs; how long an attestation counts |
| `Exit.dfy`, `Redemptions.dfy`, `Holders.dfy` | what holders get: guaranteed exit, split redemptions, round trips, donations, fees |
| `Blend.dfy`, `Lending.dfy` | rounding and quotes of a Blend position; the vault's waterfall, redemptions and runs over lending strategies |
| `Histories.dfy` | runs from initialisation in which a promise fails, and exactly which supplies have one |
| `StrategyContracts.dfy`, `Hosts.dfy`, `Contracts.dfy` | token, strategies and pool, the host with its roll-back, and the vault as classes, proved against the model |
| `Keeper.dfy` | the keeper's decision against the vault's buffer check |
| `Timelock.dfy` | the upgrade timelock over whole traces |
| `Checked.dfy` | the same arithmetic in checked 128-bit integers |

Notation: A is total assets, S total supply, V the virtual offset of 10^6, P the price precision of 10^7. Prices are compared
cross-multiplied.

## Where the code and its promises differ

The model follows the code. Each of these is a lemma.

- The high-water mark can fall when fees are collected at a tiny supply. It never does exactly when 7S + 10 >= 3V
  (`Fees.MarkMonotoneIff`); the offset itself is more than enough, but it is not needed. Every smaller supply is reached from
  initialisation with a mark that the next collection lowers (`Histories.MarkFallsAtSupplyIff`), and
  `Histories.MarkFallsInARun` is such a run without losses.
- A fee can fall due with no yield in between: redeemed shares leave part of their profit to the offset, which lifts the assets
  behind every other share whenever S < A. `Redemptions.RedemptionMakesYield` bounds what is then counted as yield and says
  exactly when a fee is due on it; the run in `Histories.MarkFallsInARun` ends that way.
- The virtual offset is said to block the first-depositor donation (docs/tranche-1/submission.md:15). It bounds what can be
  gained but does not make every donation unprofitable. With one later deposit it never pays
  (`Shares.DonationNeverPays`); with n of them the donor gains at most n-1 units (`Shares.DonationPaysAtMostOneEach`), and with
  two can gain one (`Shares.DonorCanGain`).
- "Whatever the vault holds is redeemable in a single transaction" needs supply to be within assets. After a written-off loss
  the virtual offset can quote more than there is, and the redemption is refused; `Exit.HolderExitIff` gives the exact
  condition for any holder, `Exit.SoleHolderExitIff` for a sole one, and `Histories.ExitRefusedInARun` a run that ends so.
- A deposit redeemed at once comes back in full exactly when the price divides it, not only at a price of one
  (`Shares.RoundTrip`, `Shares.RoundTripFreeOffPar`).
- The two-unit margin of the Blend quote does not eliminate the rounding race. It covers n accepted calls at rate r when
  n*r <= 2*10^12; two small deposits at a rate of 1.4 already exceed it (`Blend.MarginCanBeTooSmall`), and the whole quote is
  withdrawable exactly when the pool can be reached and the quote is within the pool position
  (`Blend.WholeQuoteWithdrawableIff`).
- "A stale or unreachable pool should not silently promise more than we can deliver": an unreachable pool is quoted at the
  tracked balance less the margin and then delivers nothing (`Blend.UnreachableQuoteFails`), so a redemption that gets to it
  aborts even if the other strategies could cover the shortfall (`Lending.UnreachableBlocksRedemption`). Within the margin,
  being reachable is exactly what the quote depends on (`Blend.QuoteIsHonestIff`).
- The execution time announced when an upgrade is scheduled binds only while the delay is not set below what it was
  (`Timelock.AnnouncedTimeBinds`, `Timelock.AnnouncedTimeBindsIff`): an admin can lower it to one hour after scheduling under
  two days (`Timelock.NoticeCanBeCutShort`). One hour is what is guaranteed.

## Assumptions

- The vault never acts as its own user; where a result needs it, the user is also not a strategy contract. Authorisation is
  a caller equal to the stored role.
- Two contracts never share an address, a strategy's token is the vault's asset, every lending strategy has a pool of its own
  that is neither the vault nor a strategy, and the vault is not a strategy's admin.
- The lending pool rounds down when it mints b_tokens and up when it burns them (README.md:81 of the repository), refuses to
  burn more than is held or to pay out more than it has free, and its rate never falls in the runs that say so.

## Model

| member | source | states |
|---|---|---|
| Shares.DepositStep | contracts/contracts/tezoro-vault/src/lib.rs:158-181 | a deposit never lowers the share price and, if S <= A, mints at most one share per asset |
| Shares.RedeemStep | contracts/contracts/tezoro-vault/src/lib.rs:144-148 | a redemption never lowers the price of the remaining shares and, if S <= A, pays at least one asset per share, at most A, and keeps S <= A |
| Shares.RoundTrip | contracts/contracts/tezoro-vault/src/lib.rs:138-148 | deposit then redeem: never a gain, the loss bounded by one unit and one share's price, and free if and only if (A+V) divides assets*(S+V) |
| Shares.RoundTripFreeAtPar | contracts/contracts/tezoro-vault/src/lib.rs:138-148 | at A = S the round trip is free for every amount |
| Shares.RoundTripFreeOffPar | contracts/contracts/tezoro-vault/src/lib.rs:138-148 | it can also be free at A != S: a concrete case at twice the price |
| Shares.DonationPaysAtMostOneEach | contracts/contracts/tezoro-vault/src/lib.rs:14 | for every first deposit, donation and list of n <= V later deposits that mint, redeeming the first shares pays at most deposit plus donation plus n-1 |
| Shares.DonationNeverPays | contracts/contracts/tezoro-vault/src/lib.rs:14 | in particular with one later deposit, redeeming the first shares pays at most deposit plus donation |
| Shares.DonorCanGain | contracts/contracts/tezoro-vault/src/lib.rs:138-170 | it can pay more than deposit plus donation: a concrete case with two later deposits that meets the bound |
| Shares.PriceTransitive | contracts/contracts/tezoro-vault/src/lib.rs:144-148 | the cross-multiplied price order is transitive, so price results compose along runs |
| Fees.FeeFacts | contracts/contracts/tezoro-vault/src/lib.rs:515-539 | what a charged fee implies: the price exceeds the mark, the fee is at most its rate's part of the yield above it, and the shares are priced down |
| Fees.FeeDueIff | contracts/contracts/tezoro-vault/src/lib.rs:515-539 | a fee is due if and only if there is supply, a rate is set, A*P covers one step above the mark, and the rate's part of the yield, rounded down, buys a share |
| Fees.FeeHasTerms | contracts/contracts/tezoro-vault/src/lib.rs:519-550 | the worth at the mark, the fee, the shares and the new mark of a charged fee are each the product they come from rounded down, bounded from both sides |
| Fees.TermsAreFee | contracts/contracts/tezoro-vault/src/lib.rs:519-550 | and amounts within those bounds are what is charged, at every rate |
| Fees.FeeKeepsSupplyCovered | contracts/contracts/tezoro-vault/src/lib.rs:523-550 | with the mark at par or above, S plus the fee shares stays within A, and the new mark is again at par or above |
| Fees.FeeDilution | contracts/contracts/tezoro-vault/src/lib.rs:523-554 | minting dilutes no more than paying the fee out would; the minted shares are worth at most the fee; the fee is at most its rate's part of the yield; an immediate second collection finds nothing |
| Fees.MarkNeverFalls | contracts/contracts/tezoro-vault/src/lib.rs:515-550 | for 7S+10 >= 3V and rate at most the cap, old mark <= new mark <= price before the fee |
| Fees.MarkCanFall | contracts/contracts/tezoro-vault/src/lib.rs:533-550 | for every smaller positive supply and every high mark, the assets from which collecting lowers that mark |
| Fees.MarkMonotoneIff | contracts/contracts/tezoro-vault/src/lib.rs:515-550 | the mark is monotone for all assets, marks and permitted rates if and only if 7S+10 >= 3V |
| Fees.RedemptionLiftsNavIff | contracts/contracts/tezoro-vault/src/lib.rs:144-148 | a redemption never lowers A/S, and raises it if and only if S < A |
| Fees.PhantomYield | contracts/contracts/tezoro-vault/src/lib.rs:515-524 | with A*P/S at the mark or below, redemption leaves a yield above the mark of less than the redeemed part of V(A-S)/(S+V) and the rounding; the exact condition for a fee on it |
| Balances.MoveConserves | contracts/contracts/tezoro-vault/src/lib.rs:108-114 | moving an amount conserves the total and changes exactly the two entries, also when they are the same |
| Strategies.WithdrawOutcome | contracts/contracts/tezoro-common/src/strategy.rs:28-31 | for either kind of strategy a withdrawal is paid, in full up to its record, if and only if strategy and pool can pay it and the account holding the funds has the tokens; then exactly that moves to the caller |
| Strategies.EmergencyOutcome | contracts/contracts/tezoro-common/src/strategy.rs:33-35 | an emergency withdrawal that goes through, asked for by the vault or by a lending strategy's admin, pays what it reports to the vault and leaves no record |
| Strategies.DepositOutcome | contracts/contracts/tezoro-common/src/strategy.rs:23-26 | a deposit raises the record by the amount and passes pre-transferred tokens on to where the funds are held |
| Accounting.PullEffect | contracts/contracts/tezoro-vault/src/lib.rs:241-253 | a pull pays between 1 and the amount asked; A rises by exactly what came back beyond the tracked balance and never falls |
| Accounting.WaterfallEffect | contracts/contracts/tezoro-vault/src/lib.rs:224-260 | over self-contained and lending strategies with arbitrary records, rates and pools, honest or not, a waterfall that goes through conserves tokens, never lowers idle funds or A, and leaves unlisted strategies' records alone |
| Accounting.DepositEffect | contracts/contracts/tezoro-vault/src/lib.rs:150-186 | exact change of A, S and the depositor's shares; invariant kept |
| Accounting.RedeemEffect | contracts/contracts/tezoro-vault/src/lib.rs:199-279 | pays exactly the quote, burns exactly the shares, A falls by at most what is paid; invariant kept |
| Accounting.TransferEffect | contracts/contracts/tezoro-vault/src/lib.rs:103-117 | shares move between exactly two holders, a self-transfer changes nothing; invariant kept |
| Accounting.AddStrategyEffect | contracts/contracts/tezoro-vault/src/lib.rs:285-301 | listing a strategy leaves A, S and tokens unchanged and the list free of duplicates |
| Accounting.RemoveStrategyEffect | contracts/contracts/tezoro-vault/src/lib.rs:303-328 | delisting leaves A, S and tokens unchanged, whatever was listed |
| Accounting.AllocateEffect | contracts/contracts/tezoro-vault/src/lib.rs:387-396 | allocation leaves A unchanged and lowers idle funds by the amount |
| Accounting.DeallocateEffect | contracts/contracts/tezoro-vault/src/lib.rs:400-429 | deallocation never lowers A and conserves tokens, whatever the strategy returns |
| Accounting.EmergencyEffect | contracts/contracts/tezoro-vault/src/lib.rs:432-454 | A changes by what came back less what was tracked |
| Accounting.UpdateTrackedEffect | contracts/contracts/tezoro-vault/src/lib.rs:478-496 | A changes by exactly the change of the report |
| Accounting.CollectEffect | contracts/contracts/tezoro-vault/src/lib.rs:507-555 | from any reachable state a collected fee leaves A unchanged and S within A |
| Calls.TransferIff | contracts/contracts/tezoro-vault/src/lib.rs:103-117 | a share transfer goes through if and only if the amount is positive and held; what moves, and the error otherwise |
| Calls.DepositIff | contracts/contracts/tezoro-vault/src/lib.rs:150-186 | a deposit goes through if and only if the vault is not paused, the depositor has the positive amount, a cap that is set leaves room, and the amount pays for a share; the shares minted within two products, and that nothing else changes |
| Calls.AddStrategyIff | contracts/contracts/tezoro-vault/src/lib.rs:285-301 | the admin, and no one else, lists a strategy that is not listed while there are fewer than 20; it comes last with nothing recorded |
| Calls.RemoveStrategyIff | contracts/contracts/tezoro-vault/src/lib.rs:303-328 | the admin, and no one else, delists a listed strategy with nothing recorded; exactly it leaves the list, the others keep their order and records |
| Calls.AllocateIff | contracts/contracts/tezoro-vault/src/lib.rs:345-385 | for every caller and state: an allocation goes through if and only if the keeper asks, the buffer is left, and a listed strategy of the vault is healthy and takes deposits; exactly when it reports the buffer or the health |
| Calls.AllocateOutcome | contracts/contracts/tezoro-vault/src/lib.rs:387-396 | the amount goes from the vault to the account that holds the strategy's funds and on both records; nothing else changes |
| Calls.DeallocateIff | contracts/contracts/tezoro-vault/src/lib.rs:400-429 | the keeper gets back exactly the smaller of the amount and the strategy's record, if and only if it is positive and the strategy can return it; both records go down by it, the vault's not below zero, and nothing else changes |
| Calls.EmergencyWithdrawIff | contracts/contracts/tezoro-vault/src/lib.rs:432-454 | the admin and the guardian, and no one else, empty a listed strategy, if and only if all it is worth can be returned at once; what comes back, and that neither record survives |
| Calls.UpdateTrackedIff | contracts/contracts/tezoro-vault/src/lib.rs:478-496 | the keeper, and no one else, replaces the record of a listed strategy by a report that is not negative; nothing else changes |
| Calls.CollectFeesIff | contracts/contracts/tezoro-vault/src/lib.rs:507-555 | a collection goes through if and only if a fee is due; the recipient's shares, the supply and the mark after it, within the products of the fee, and that nothing else changes |
| Calls.InitializeIff | contracts/contracts/tezoro-vault/src/lib.rs:46-73 | accepted if and only if both rates are within their caps; every role and rate is as given, and everything else starts empty |
| Greedy.TakenInOrder | contracts/contracts/tezoro-vault/src/lib.rs:220-240 | strategies are drained in list order: nothing is taken from a later one unless every earlier one is drained, so at most one is partly drawn |
| Greedy.TakeTotal | contracts/contracts/tezoro-vault/src/lib.rs:225-260 | altogether the minimum of what is needed and what the strategies can deliver is taken |
| Greedy.PullWithinQuote | contracts/contracts/tezoro-vault/src/lib.rs:236-241 | a pull within the quote, for either kind of strategy, delivers exactly the amount asked, or fails exactly when the strategy cannot deliver it |
| Greedy.WaterfallExact | contracts/contracts/tezoro-vault/src/lib.rs:224-260 | over strategies whose funds are held separately, with any quotes, the loop goes through if and only if every strategy it reaches can deliver its greedy part; then it takes exactly the closed-form greedy amounts and touches nothing else, and otherwise the transaction aborts |
| Greedy.RedeemSucceedsIff | contracts/contracts/tezoro-vault/src/lib.rs:199-269 | a redemption succeeds if and only if the holder has the shares, the quote is positive, idle funds plus the strategies' quotes cover it, and every strategy reached delivers its part; otherwise it reports InsufficientAssets, or aborts where a strategy did not deliver |
| Greedy.HonestRedeemSucceedsIff | contracts/contracts/tezoro-vault/src/lib.rs:199-269 | with quotes that can be delivered, covering the amount is all that matters |
| Greedy.RedeemMoves | contracts/contracts/tezoro-vault/src/lib.rs:224-279 | exactly max(0, assets - idle) is pulled, split greedily, out of the accounts that hold the funds; the holder receives the whole amount; everyone else is untouched |
| Runs.ApplyKeepsWf | contracts/contracts/tezoro-vault/src/lib.rs:24-555 | every call keeps: shares sum to supply, mark at par or above, no duplicate strategies, nothing tracked for unlisted ones |
| Runs.RunKeepsWf | contracts/contracts/tezoro-vault/src/lib.rs:24-555 | the same over any run, lossy or not |
| Runs.InitialState | contracts/contracts/tezoro-vault/src/lib.rs:54-73 | a fresh vault satisfies the invariant and is solvent, even if tokens were sent to it before |
| Runs.StepKeepsPrice | contracts/contracts/tezoro-vault/src/lib.rs:150-429 | every loss-free step except fee collection keeps the price, including a redemption that hits the saturating branch |
| Runs.PriceNeverFalls | contracts/contracts/tezoro-vault/src/lib.rs:150-429 | the price at the end of a loss-free run without fees is at least the price at its start |
| Runs.StepKeepsSolvency | contracts/contracts/tezoro-vault/src/lib.rs:150-555 | every loss-free step, fees included, keeps S <= A |
| Runs.LossFreeRunsStaySolvent | contracts/contracts/tezoro-vault/src/lib.rs:150-555 | S <= A and the mark at par or above hold together throughout every loss-free run |
| Runs.StepConservesTokens | contracts/contracts/tezoro-vault/src/lib.rs:150-454 | every call conserves the sum of token balances over all addresses; only yield adds, exactly what it mints |
| Runs.RunsConserve | contracts/contracts/tezoro-vault/src/lib.rs:103-555 | over any run, shares sum to supply and the token ledger grows by exactly what yield minted |
| Ownership.RedeemOutcome | contracts/contracts/tezoro-vault/src/lib.rs:199-279 | a redemption burns exactly the shares asked for, of the holder and no one else, and pays their worth rounded down, within two products; exactly when it is refused for want of shares or as worth nothing |
| Ownership.StepKeepsTheRest | contracts/contracts/tezoro-vault/src/lib.rs:103-555 | each part of the state changes only in the calls meant to change it: mark, supply, share table, list, records, attestation, settings, tokens, contracts |
| Ownership.OnlyOwnersSpend | contracts/contracts/tezoro-vault/src/lib.rs:103-279 | over any run, lossy or not, a user who makes no call loses no shares and no tokens |
| Ownership.PassiveClaimNeverFalls | contracts/contracts/tezoro-vault/src/lib.rs:138-148 | over any loss-free run without fees, the quote for the shares of a user who makes no call never falls |
| Ownership.RemovedStaysOut | contracts/contracts/tezoro-vault/src/lib.rs:303-328 | from removal until the admin lists it again, over any run, a strategy has no record and allocating to it, deallocating, reporting and emptying it are all refused |
| Attestations.AttestIff | contracts/contracts/tezoro-vault/src/lib.rs:460-471 | an attestation is accepted from the keeper if it is not negative; any other changes nothing |
| Attestations.AttestationCountsIff | contracts/contracts/tezoro-vault/src/lib.rs:792-804 | after an accepted attestation of b with none since, over any run, A less idle funds and records is b if and only if the time passed is at most the maximum age in force (or b is zero), and 0 if and only if it is more (or b is zero) |
| Attestations.UnattestedCountsNothing | contracts/contracts/tezoro-vault/src/lib.rs:792-796 | without an attestation since initialisation A is idle funds and records |
| Ledgers.PullKeepsLedgers | contracts/contracts/tezoro-vault/src/lib.rs:243-253 | the saturating subtraction preserves tracked <= strategy record (<= tokens held, if it holds them itself), and equality of the records |
| Ledgers.ListingKeepsLedgers | contracts/contracts/tezoro-vault/src/lib.rs:285-301 | listing a strategy, also one removed before, preserves the agreement |
| Ledgers.DelistingKeepsLedgers | contracts/contracts/tezoro-vault/src/lib.rs:303-328 | removing a strategy preserves the agreement |
| Ledgers.StepKeepsLedgers | contracts/contracts/mock-strategy/src/lib.rs:76-192 | every matched step preserves the agreement of the vault's record, the strategy's record and its tokens |
| Ledgers.LedgersAgreeAlways | contracts/contracts/tezoro-vault/src/lib.rs:243-454 | agreement over whole runs for every strategy, listed or not; equality of the records when no yield or report occurs |
| Exit.ExitWithinMargin | contracts/contracts/tezoro-vault/src/lib.rs:188-279 | when honest quotes are within a margin of what is tracked, every redemption whose quote leaves that margin per strategy, and the bridged balance, untouched goes through for exactly the quote |
| Exit.GuaranteedExit | contracts/contracts/tezoro-vault/src/lib.rs:188-279 | when honest quotes cover what is tracked, nothing is bridged and S <= A, any holder can redeem any positive part of their shares in one call for exactly the quote, at least one asset per share |
| Exit.SelfContainedIsLiquid | contracts/contracts/mock-strategy/src/lib.rs:155-161 | self-contained strategies whose ledgers agree have honest quotes that cover what is tracked |
| Exit.EveryHolderCanAlwaysExit | contracts/contracts/tezoro-vault/src/lib.rs:188-279 | over self-contained strategies, the same after every loss-free run |
| Exit.EveryHolderCanExitSinceInitialisation | contracts/contracts/tezoro-vault/src/lib.rs:30-77 | the same from initialisation on |
| Exit.HolderExitIff | contracts/contracts/tezoro-vault/src/lib.rs:196-269 | without solvency, strategies holding just what is tracked: any redemption succeeds if and only if its quote is positive and shares*(A+V) < (A+1)(S+V), and is otherwise refused |
| Exit.SoleHolderExitIff | contracts/contracts/tezoro-vault/src/lib.rs:196-269 | in particular redeeming the whole supply succeeds if and only if the quote is positive and V(S-A-1) < S |
| Exit.ClaimsAreCovered | contracts/contracts/tezoro-vault/src/lib.rs:144-148 | the sum of all holders' quotes for their whole balances is at most A |
| Redemptions.PayOutWithoutSurplus | contracts/contracts/tezoro-vault/src/lib.rs:224-279 | when no strategy holds more than is tracked, a redemption lowers A by exactly what it pays |
| Redemptions.ChainBounds | contracts/contracts/tezoro-vault/src/lib.rs:199-279 | any successful redemptions by any holders in any order: exact change of S and A, and the total paid bounded above and below |
| Redemptions.SplittingCostsAtMostOneEach | contracts/contracts/tezoro-vault/src/lib.rs:144-148 | n redemptions of s shares pay between the single quote less n-1 and the single quote |
| Redemptions.DustLeftBehind | contracts/contracts/tezoro-vault/src/lib.rs:199-279 | after the whole supply is redeemed in n calls, what remains is less than V(A-S)/(S+V) + n |
| Redemptions.RedemptionMakesYield | contracts/contracts/tezoro-vault/src/lib.rs:507-535 | a redemption call leaves the others more assets per share if and only if S < A, and with it a yield above the mark that nobody earned: its bound, and exactly when a fee is due on it |
| Holders.RoundTripInVault | contracts/contracts/tezoro-vault/src/lib.rs:150-279 | the round-trip result for actual deposit and redeem calls |
| Holders.DonationInVault | contracts/contracts/tezoro-vault/src/lib.rs:150-279 | the donation result for actual deposit, transfer, redeem calls and any number up to V of deposits in between |
| Holders.CollectionInVault | contracts/contracts/tezoro-vault/src/lib.rs:502-555 | the fee shares are worth at most the rate's part of the yield above the mark; a second collection is refused |
| Holders.MarkNeverFallsOverRuns | contracts/contracts/tezoro-vault/src/lib.rs:515-550 | over any run the mark never falls if fees are only collected at 7S+10 >= 3V |
| Histories.MarkFallsInARun | contracts/contracts/tezoro-vault/src/lib.rs:507-555 | a concrete loss-free run from initialisation, at the highest fee rate, after which collecting fees lowers the mark |
| Histories.MarkFallsAtSupplyIff | contracts/contracts/tezoro-vault/src/lib.rs:507-555 | some run from some initialised vault ends with supply s and collecting fees lowers the mark if and only if 7s+10 < 3V, for every s |
| Histories.ExitRefusedInARun | contracts/contracts/tezoro-vault/src/lib.rs:196-269 | a concrete run from initialisation with a written-off loss, after which the sole holder's redemption of everything is refused |
| StrategyContracts.Token.Transfer | contracts/contracts/tezoro-vault/src/lib.rs:173-177 | a token transfer moves exactly the amount or fails without effect |
| StrategyContracts.MockStrategy.Deposit | contracts/contracts/mock-strategy/src/lib.rs:76-94 | books a pre-transferred amount for the vault only |
| StrategyContracts.MockStrategy.Withdraw | contracts/contracts/mock-strategy/src/lib.rs:96-129 | pays out the requested amount capped by the balance, or fails without effect |
| StrategyContracts.MockStrategy.EmergencyWithdraw | contracts/contracts/mock-strategy/src/lib.rs:131-151 | pays out the whole balance to the vault |
| Contracts.TezoroVault.TotalAssets | contracts/contracts/tezoro-vault/src/lib.rs:123-136 | the loop computes idle plus the sum of tracked balances plus the effective bridged balance |
| Contracts.TezoroVault.StrategyExists | contracts/contracts/tezoro-vault/src/storage.rs:362-370 | the search loop decides membership in the list |
| Contracts.TezoroVault.Transfer | contracts/contracts/tezoro-vault/src/lib.rs:103-117 | in-place share transfer has the modelled outcome, errors included |
| Contracts.TezoroVault.Deposit | contracts/contracts/tezoro-vault/src/lib.rs:150-186 | in-place deposit has the modelled outcome; a refused call leaves all state as before |
| Contracts.TezoroVault.RaiseShortfall | contracts/contracts/tezoro-vault/src/lib.rs:224-260 | the waterfall loop over both kinds of strategy contracts computes the recursive waterfall |
| Hosts.Host.RollBack | contracts/contracts/tezoro-vault/src/lib.rs:262-268 | the host's undoing of a failed redemption restores tokens and the state of every strategy and pool |
| Hosts.Host.SendAndDeposit | contracts/contracts/tezoro-vault/src/lib.rs:387-389 | a transfer and the deposit that books it happen together or not at all |
| Contracts.TezoroVault.Redeem | contracts/contracts/tezoro-vault/src/lib.rs:199-279 | a redemption has the modelled outcome as a whole or leaves every contract as before |
| Contracts.TezoroVault.AddStrategy | contracts/contracts/tezoro-vault/src/lib.rs:285-301 | in-place listing has the modelled outcome |
| Contracts.TezoroVault.Without | contracts/contracts/tezoro-vault/src/lib.rs:310-319 | the filtering loop computes the list without the strategy and whether it was there |
| Contracts.TezoroVault.RemoveStrategy | contracts/contracts/tezoro-vault/src/lib.rs:303-328 | in-place delisting has the modelled outcome |
| Contracts.TezoroVault.Allocate | contracts/contracts/tezoro-vault/src/lib.rs:345-397 | allocation has the modelled outcome, a strategy that refuses undoing the transfer |
| Contracts.TezoroVault.Deallocate | contracts/contracts/tezoro-vault/src/lib.rs:400-429 | deallocation has the modelled outcome |
| Contracts.TezoroVault.EmergencyWithdrawStrategy | contracts/contracts/tezoro-vault/src/lib.rs:432-454 | the emergency pull has the modelled outcome |
| Contracts.TezoroVault.AttestBridgedBalance | contracts/contracts/tezoro-vault/src/lib.rs:460-476 | attestation has the modelled outcome |
| Contracts.TezoroVault.UpdateTrackedBalance | contracts/contracts/tezoro-vault/src/lib.rs:478-496 | the report has the modelled outcome |
| Contracts.TezoroVault.CollectFees | contracts/contracts/tezoro-vault/src/lib.rs:507-555 | fee collection step by step has the modelled outcome |
| Contracts.InitializeVault | contracts/contracts/tezoro-vault/src/lib.rs:42-73 | initialisation refuses a second time, checks both caps and starts the vault empty with the mark at par, satisfying the invariant |
| StrategyContracts.BlendPool.SubmitSupply | contracts/contracts/blend-strategy/src/lib.rs:114-127 | supplying takes the tokens and mints b_tokens rounded down, or is refused without effect |
| StrategyContracts.BlendPool.SubmitWithdraw | contracts/contracts/blend-strategy/src/lib.rs:160-173 | withdrawing burns b_tokens rounded up and sends the tokens, or is refused without effect |
| StrategyContracts.BlendStrategy.Deposit | contracts/contracts/blend-strategy/src/lib.rs:95-136 | in-place deposit has the modelled outcome |
| StrategyContracts.BlendStrategy.Withdraw | contracts/contracts/blend-strategy/src/lib.rs:142-183 | in-place withdrawal has the modelled outcome |
| StrategyContracts.BlendStrategy.EmergencyWithdraw | contracts/contracts/blend-strategy/src/lib.rs:190-230 | in-place emergency withdrawal has the modelled outcome |
| Blend.WithdrawAcceptedIff | contracts/contracts/blend-strategy/src/lib.rs:142-183 | a withdrawal within the tracked balance goes through if and only if the pool can be reached and it is within the pool position and the pool's free liquidity |
| Blend.DepositIff | contracts/contracts/blend-strategy/src/lib.rs:95-136 | accepted from the vault if and only if the strategy is not paused, the amount is positive and the pool can be reached; b_tokens minted bounded from both sides |
| Blend.WithdrawIff | contracts/contracts/blend-strategy/src/lib.rs:142-183 | for every caller and amount: accepted from the vault if and only if the capped amount is positive, the b_tokens are worth it and the pool has it free, in supplies and rates; b_tokens burned bounded from both sides |
| Blend.EmergencyIff | contracts/contracts/blend-strategy/src/lib.rs:190-230 | accepted from the vault and the admin if and only if all the position is worth is free or it is worth nothing, or, with the pool unreachable, nothing is tracked; and what it pays |
| Blend.QuotedIff | contracts/contracts/blend-strategy/src/lib.rs:317-342 | an amount is within the quote if and only if it is zero, or two more are tracked and, if the pool can be reached, two more than was lent out are supplied, in supplies and rates |
| Blend.CallsLeaveOthers | contracts/contracts/blend-strategy/src/lib.rs:95-230 | over any run of calls the other suppliers' b_tokens, the rates and the loans stay as they are |
| Blend.RoundingDebt | contracts/contracts/blend-strategy/src/lib.rs:95-183 | over any run at a non-decreasing rate, (B + n)*r >= tracked*10^12 after n accepted calls |
| Blend.TrackedIsNetFlow | contracts/contracts/blend-strategy/src/lib.rs:95-183 | over any run without emergency exits the tracked balance is exactly what went in less what came out |
| Blend.RoundingNeverPays | contracts/contracts/blend-strategy/src/lib.rs:95-230 | at a standing rate no run of deposits, withdrawals and emergency exits takes out more than was put in, and what the position is worth stays covered by the difference |
| Blend.QuoteIsHonestIff | contracts/contracts/blend-strategy/src/lib.rs:317-342 | while the debt fits the margin, an amount up to the quote is delivered, in full, if and only if the pool can be reached |
| Blend.MarginCovers | contracts/contracts/blend-strategy/src/lib.rs:19-33 | with a debt of n b_tokens and n*r <= 2*10^12 the quote is within the pool position |
| Blend.QuoteIsHonestAfterRunIff | contracts/contracts/blend-strategy/src/lib.rs:19-33 | the same from an empty position after any run with n*r <= 2*10^12 |
| Blend.WholeQuoteWithdrawableIff | contracts/contracts/blend-strategy/src/lib.rs:317-342 | the whole quote is withdrawable if and only if the pool can be reached and the quote is within the pool position |
| Blend.UnreachableQuoteFails | contracts/contracts/blend-strategy/src/lib.rs:327-330 | an unreachable pool is quoted at the tracked balance less the margin and delivers nothing |
| Blend.MarginCanBeTooSmall | contracts/contracts/blend-strategy/src/lib.rs:19-23 | a concrete run of two deposits after which the quote cannot be withdrawn |
| Blend.EmergencyBurnsAll | contracts/contracts/blend-strategy/src/lib.rs:204-224 | at a rate of at least one, withdrawing the quoted position burns exactly the b_tokens held |
| Blend.EmergencyLeavesNothingIff | contracts/contracts/blend-strategy/src/lib.rs:566-573 | it does so for every holding if and only if the rate is at least one |
| Blend.EmergencyEmptiesPosition | contracts/contracts/blend-strategy/src/lib.rs:190-230 | a successful emergency exit clears the tracked balance; with a reachable pool it empties the position and returns the floor of its worth, otherwise nothing was tracked and the position stays |
| Lending.BackedIsHonestIff | contracts/contracts/blend-strategy/src/lib.rs:317-342 | a strategy of the vault whose funds are there can deliver what it quotes if and only if its pool can be reached and the position is worth the quote (or the quote is zero) |
| Lending.WaterfallOverLending | contracts/contracts/tezoro-vault/src/lib.rs:224-260 | the vault's waterfall over lending strategies on separate pools, self-contained ones among them or not, goes through and takes exactly the greedy amounts while each strategy is good for its quote |
| Lending.RedeemOverLendingIff | contracts/contracts/tezoro-vault/src/lib.rs:199-269 | a redemption over them succeeds if and only if the holder has the shares, the quote is positive, and idle funds and quotes, liquidity limits and margins included, cover it |
| Lending.RedeemFromRecordsIff | contracts/contracts/tezoro-vault/src/lib.rs:199-269 | over partly lent-out pools a redemption succeeds if and only if the shortfall can be put together from amounts within the records and the free funds, each less two units |
| Lending.RedeemFromOnePoolIff | contracts/contracts/tezoro-vault/src/lib.rs:199-269 | with one lending strategy: if and only if the shortfall and two units more are within its record and within what its pool has free |
| Lending.UnreachableBlocksRedemption | contracts/contracts/tezoro-vault/src/lib.rs:231-241 | a strategy whose pool cannot be reached, at any place in the list that the greedy account gets to, aborts the redemption, whatever the others could deliver |
| Lending.WaterfallPaysOnce | contracts/contracts/tezoro-vault/src/lib.rs:227-241 | the waterfall draws on each strategy at most once |
| Lending.DebtOverRuns | contracts/contracts/blend-strategy/src/lib.rs:95-183 | over any run of the vault at rates that never fall, a lending strategy falls behind by at most one b_token for every call that changed it |
| Lending.QuoteCoveredAfterRun | contracts/contracts/blend-strategy/src/lib.rs:19-33 | so its quote stays within its position while the margin covers that many roundings at the pool's rate |
| Lending.ExitOverLending | contracts/contracts/tezoro-vault/src/lib.rs:188-279 | at the end of any matched run of any length, over reachable pools with the recorded funds free and positions worth their quotes, every redemption whose quote leaves two units per strategy, and the bridged balance, untouched goes through for exactly its quote |
| Keeper.TickIff | keeper/src/allocate-loop.ts:74-104 | for healthy and unhealthy strategies: exactly when the keeper does nothing, waits, holds back or submits, and how much |
| Keeper.SubmitsIffAccepted | keeper/src/allocate-loop.ts:74-104 | with the vault's buffer rate, the keeper submits if and only if the vault would accept some amount of at least the minimum |
| Keeper.SubmittedAllocationFits | keeper/src/allocate-loop.ts:74-104 | the keeper submits the largest amount the vault accepts; A is unchanged, idle equals the buffer, and the next tick is idle-below-buffer |
| Keeper.SubmittedAllocationSurvivesDeposits | keeper/src/allocate-loop.ts:69-104 | the submitted amount is still accepted after any deposits in between |
| Keeper.MirroredRateMatters | keeper/src/allocate-loop.ts:74-74 | with a different mirrored buffer rate, it is accepted if and only if the vault's buffer is no larger than the keeper's |
| Timelock.UpgradeTimelock.ProposeAdminCall | contracts/contracts/tezoro-vault/src/lib.rs:608-614 | in-place outcome as modelled |
| Timelock.UpgradeTimelock.AcceptAdminCall | contracts/contracts/tezoro-vault/src/lib.rs:616-627 | in-place outcome as modelled |
| Timelock.UpgradeTimelock.SetUpgradeDelayCall | contracts/contracts/tezoro-vault/src/lib.rs:636-644 | in-place outcome as modelled |
| Timelock.UpgradeTimelock.ScheduleUpgrade | contracts/contracts/tezoro-vault/src/lib.rs:653-666 | in-place outcome as modelled, including the abort when the announced time does not fit 64 bits |
| Timelock.UpgradeTimelock.ExecuteUpgrade | contracts/contracts/tezoro-vault/src/lib.rs:669-686 | in-place outcome as modelled |
| Timelock.UpgradeTimelock.CancelUpgrade | contracts/contracts/tezoro-vault/src/lib.rs:689-698 | in-place outcome as modelled |
| Timelock.ScheduleHasOrigin | contracts/contracts/tezoro-vault/src/storage.rs:294-335 | whatever is scheduled was put there by an accepted call that still stands, at the recorded time |
| Timelock.UpgradeWasAnnounced | contracts/contracts/tezoro-vault/src/lib.rs:636-698 | every accepted execution follows, by at least the minimum delay, a schedule of the same hash with no schedule, cancel or execute in between, for any trace |
| Timelock.ExecutionConsumesSchedule | contracts/contracts/tezoro-vault/src/lib.rs:673-684 | between two accepted executions there is a new schedule |
| Timelock.AnnouncedTimeBinds | contracts/contracts/tezoro-vault/src/lib.rs:653-680 | over any trace, an accepted execution comes no earlier than the time announced with its schedule if no accepted call in between set the delay below what it was |
| Timelock.AnnouncedTimeBindsIff | contracts/contracts/tezoro-vault/src/lib.rs:653-680 | at any point of a trace where a schedule still stands, its announced time is respected by every execution that would be accepted if and only if the delay in force is no lower than the announced one |
| Timelock.NoticeCanBeCutShort | contracts/contracts/tezoro-vault/src/lib.rs:650-686 | a concrete trace scheduled under two days and executed after one hour, before the announced time |
| Timelock.AdminByConsent | contracts/contracts/tezoro-vault/src/lib.rs:608-627 | over any trace, the admin is the last to have accepted a proposal that still stood, made by the admin of its time, or the one from the start |
| Timelock.DelayWasSet | contracts/contracts/tezoro-vault/src/lib.rs:636-644 | over any trace, the delay in force is what the last accepted call set it to, or the one from the start |
| Timelock.AcceptedIffDue | contracts/contracts/tezoro-vault/src/lib.rs:608-698 | over any trace, every call is accepted if and only if its caller is the admin, or has a standing proposal, an execution or cancellation has a standing schedule, and the times allow it |
| Checked.TotalAssetsFits | contracts/contracts/tezoro-vault/src/lib.rs:123-136 | the accumulated sum never overflows while A is below 2^63 |
| Checked.DepositFits | contracts/contracts/tezoro-vault/src/lib.rs:158-181 | for S <= A < 2^63 the checked deposit arithmetic, the depositor's new balance included, gives the exact result |
| Checked.RaiseFits | contracts/contracts/tezoro-vault/src/lib.rs:243-258 | the waterfall's subtractions from records and from the remaining shortfall never overflow, whatever the strategies return |
| Checked.RedeemFits | contracts/contracts/tezoro-vault/src/lib.rs:210-273 | likewise for redemption, the waterfall and the holder's new balance included |
| Checked.AllocateFits | contracts/contracts/tezoro-vault/src/lib.rs:369-372 | likewise for the buffer check |
| Checked.FeeFits | contracts/contracts/tezoro-vault/src/lib.rs:515-549 | likewise for the fee, for every value of the mark |
| Checked.CollectFits | contracts/contracts/tezoro-vault/src/lib.rs:541-547 | likewise with the recipient's new balance |
| Checked.EagerProductWouldOverflow | contracts/contracts/tezoro-vault/src/lib.rs:519-529 | forming mark times supply before the price check would abort where the code does not |

## Left out

- Calls before initialisation: one guard. Whether the vault's address is initialised already is a parameter of `InitializeVault`.
- Events, TTL bumping, name, symbol, decimals, plain getters: host plumbing.
- Pause, cap, role and attestation-age setters: one step of a run stands for any change of them; their own checks are easy.
- Whether a caller signed: callers are compared with stored roles only.
- The Blend pool's interest model, auctions, emissions, `harvest`, approvals and health thresholds: the pool is its rates,
  supplies and rounding, whether it can be reached, and whether it is within the thresholds.
- Direct emergency withdrawal by a Blend strategy's admin as a step of the vault's runs, and `set_vault`: they bypass the
  vault's record.
- Two Blend strategies sharing one pool's liquidity.
- The Blend strategy's own timelock: the same code as the vault's.
- The timelock is a class of its own here, over the slice of the vault's storage it uses; what the new code does after an
  executed upgrade is not modelled.
- Roles and parameters of the vault are grouped into one `Settings` record.
- The host undoes failed transactions where one can fail halfway, in redemption and allocation, not around every call.
- The keeper's timer, signals, failure counter, network and key handling.
- Runs use unbounded integers; `Checked` shows entry point by entry point when 128 bits give the same results. Ledger time in
  runs is not cut off at 64 bits.
