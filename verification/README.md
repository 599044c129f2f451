# Wick: three betting markets, their indexer and their claim quotes

Three Soroban contracts hold other people's stakes in one shared token balance:
users bet on which side of a strike an oracle price falls, a pinned oracle read
settles the round, and floor-division payouts drain the balance in any order.

* **Ninetails market** (`contracts/wick-predict`): a stake earns time-weighted
  boost; the losing pool less the fee is cut 70/30 between the winners' boost
  and everybody's boost.
* **Fair market** (`contracts/fair-market`): parimutuel, rounds and positions in
  temporary storage that can expire, batch claims.
* **Epoch market** (`contracts/prediction`): a keeper-driven pipeline of rounds
  numbered by the 300-second epoch in which they lock, batch claims and refunds,
  a bounded list of each user's epochs.

Around them stand the **indexer**, which replays pages of contract events into
SQL tables and must survive crashes, and the **API's quote** of what a position
can claim.

## How it is modelled

Each contract has a `State` and one function per entry point that answers the
next state or, for a panic, a `Failure` that changes nothing. `Next` (or `Apply`)
turns these into the steps of a run, beside the passing of time, payments by
strangers and, where entries are temporary, the expiry of any entry at any
moment. A class per contract (`NinetailsContract.Market`,
`FairMarketContract.Market`, `EpochContract.Market`) and for the indexer
(`IndexerService.Service`) updates fields, branches and loops as the source does;
every method is proved to take exactly one such step, errors included, to keep
the market's accounts in order and, where it pays, never to lack the funds. The
properties are proved of the steps and of all runs.

Integers are unbounded and every i128 or u64 limit is written out: release
builds abort on overflow (`Cargo.toml:10`), so an overflow is a `Failure`. The
oracle is an arbitrary function of asset and timestamp; in the epoch market each
call may even meet a different one, except where a theorem compares prices with
one oracle's. Balances start within i128 and never negative. Entry points take the
oracle's `lastprice` answer as a parameter, and ledger time never goes back.

Files: `Checked` (Rust arithmetic), `Sums` (sums over maps and lists), `Frames`
(what a change to one round leaves alone), `Fees`, `Token`, `Oracle`,
`Wrappers`; `Ninetails*`, `FairMarket*`, `Epoch*`, `Indexer*`, `ApiQuote`. In
each family the plain name holds the step functions, `*Contract` (`*Service`)
the class, `*Rules` what users are told in plain numbers and without reference to
the step functions, `*Runs` complete runs that play a condition out, and the
others one group of theorems each.

## Conditions the code leaves to its operators

Seven properties do not hold unconditionally. For each the model keeps the code
as it is and proves exactly when it holds.

* Ninetails and fair market recompute the fee at claim time from the current
  setting, though it was accrued at settlement. A round can afford a claim at a
  fee exactly when the most its positions could draw at that fee fits beside the
  fee accrued (`Suffices`; `NinetailsFees.CoversExactlyWhen`,
  `FairMarketSolvency.CoversExactlyWhen`); any fee no lower than at settlement
  qualifies, and some lower ones. Solvency is proved for all runs whose claims
  meet that condition. That it is also necessary is played out from `initialize`
  on, for all stakes and fees: `NinetailsRuns.CutStrandsExactlyWhen`,
  `FairMarketRuns.CutStrandsExactlyWhen`.
* The epoch market never bounds `fee_bps`. `EpochRuns.FundedExactlyWhen`: every
  claim, refund and treasury sweep of every run at a fee is funded if and only if
  that fee is at most 100%; for any greater one `EpochRuns.FeeAboveWholeStrands`
  is a complete run that ends with an unpayable treasury.
* Ninetails positions expire while their round's totals stay. The totals equal
  the sums over the live positions if and only if nothing with a stake expired:
  `NinetailsExpiry.ExactExactlyWhen`; `NinetailsRuns.ExpiredStakeStays` is a
  run in which one did.
* A keeper that skips two whole epochs in a row strands a round for good, and
  only such a keeper does: `EpochKeeper.KeeperGap`, `StrandedForever`;
  `EpochStrands.MissedEpochsLoseAStake` is a run that loses a stake so.
* A `genesis_lock` not executed in the one epoch `genesis_start` opened leaves the
  asset dead for good: `EpochStrands.RunsExactlyWhen`, `LateLockLosesAStake`.
* `lock_offset` has no upper bound in the fair market and is not checked against
  the interval by the Ninetails `initialize`:
  `FairMarketSettlement.OpenUntilLockExactlyWhen`,
  `NinetailsAggregates.LocksFirstExactlyWhen`.

* The indexer keys a row by transaction and index within whatever page it was
  read in. Rows are lost if and only if two events of one transaction lie a
  multiple of 200 apart: `IndexerPages.RowPerEventExactlyWhen`,
  `LongTransactionLosesARow`. And it converges in every schedule if and only if
  it learns of every cursor it stored: `IndexerCommits.ConvergesExactlyWhen`.

Likewise recording a page of events twice adds no bet exactly when no new bet in it
comes before the creation, later in the page, of a round the tables lack
(`Indexer.BetsAgainExactlyWhen`).

Where the code and its comments disagree the model follows the code: rounding
dust stays in the balance and never reaches the treasury counter
(`contracts/prediction/src/math.rs:6-7` says otherwise); an exact tie with refunds
off is won by Down, not by the house (`contracts/prediction/src/types.rs:95`); the
per-user list holds 32 epochs, not 16 (`contracts/prediction/src/storage.rs:98-100`).

## Model

| member | source | states |
|---|---|---|
| `Token.Transfer` | contracts/wick-predict/src/lib.rs:400-402 | A transfer moves exactly the amount between two different accounts, leaves all others alone, fails on a negative amount and only lacks funds when the payer has less than the amount |
| `NinetailsPay.ShareInSteps` | contracts/wick-predict/src/lib.rs:195-230 | The chain of checked products and divisions behind one bonus: never a wrong number, and a panic exactly when one of its exact products leaves i128 |
| `NinetailsPay.WinnerPayoutInSteps` | contracts/wick-predict/src/lib.rs:195-230 | The winner's chain of checked operations computes the exact floored payout, the stake and seven and three tenths by boost to within three stroops, or panics exactly when a product, bonus or sum on the way leaves i128 |
| `NinetailsPay.LoserPayoutInSteps` | contracts/wick-predict/src/lib.rs:231-243 | Likewise the loser's three tenths by boost, to within two stroops |
| `NinetailsPay.FeeAmountInSteps` | contracts/wick-predict/src/lib.rs:245-250 | Likewise the fee, the losing pool's basis points rounded down |
| `NinetailsMath.CutsCover` | contracts/wick-predict/src/lib.rs:195-243 | The two cuts are seven and three tenths of the distributed amount, each less than one stroop short, and together use it up but for at most one |
| `NinetailsPay.LoserPayIs` | contracts/wick-predict/src/lib.rs:231-243 | A loser is paid 3/10 of the distributed amount by its boost in all boosts, less than two stroops short and never more |
| `NinetailsPay.WinnerPayIs` | contracts/wick-predict/src/lib.rs:195-230 | A winner is paid its stake, 7/10 by its boost in its side's and 3/10 by its boost in all, less than three stroops short and never more |
| `NinetailsPay.WinnerMoreThanTwoShort` | contracts/wick-predict/src/lib.rs:202-230 | An example in which it is more than two short |
| `NinetailsRules.PositionsAreRightlyPaid` | contracts/wick-predict/src/lib.rs:479-542 | Every position of every settled round of every run from initialization is paid by those numbers, its boost being its stake times the time its bet came before the lock, out of the boosts of all accepted bets; its stake if the round is void |
| `NinetailsRules.OutcomeFollowsPrice` | contracts/wick-predict/src/lib.rs:429-475 | In every run from initialization a settled round's outcome is Above exactly at a price over the strike, Below exactly at one under it, with stakes on both sides, and Void exactly at the strike, without a price or with an empty pool, the price being the oracle's for settle_ts |
| `NinetailsRules.BetAcceptedExactlyWhen` | contracts/wick-predict/src/lib.rs:383-425 | Exactly which bets are accepted: the minimum stake, the funds, the lock, one bet for each user, totals within i128 |
| `NinetailsMath.EarlierIsNeverPaidLess` | contracts/wick-predict/src/lib.rs:184-243 | With equal side and stake an earlier bettor is never paid less by either formula |
| `NinetailsMath.SplittingNeverPays` | contracts/wick-predict/src/lib.rs:184-243 | Two stakes bet at one moment carry the boost of one and are never paid more in total, nor more than two stroops less (one when losing) |
| `NinetailsMath.PayoutsFallWithDistributed` | contracts/wick-predict/src/lib.rs:195-250 | A larger fee never raises any payout |
| `NinetailsSolvency.FreshIsSolvent` | contracts/wick-predict/src/lib.rs:304-331 | A newly initialized market satisfies the solvency invariant |
| `NinetailsSolvency.AlwaysShaped` | contracts/wick-predict/src/lib.rs:335-617 | In every run at all, whatever expires and however the fee is changed, pools and boosts are at least the sums over the live positions and every decided round has stakes on both sides |
| `NinetailsSolvency.StepKeeps` | contracts/wick-predict/src/lib.rs:335-617 | Every entry point, and the expiry of any round or position, keeps the shape of the books; a claim also keeps the balance at least fees plus open stakes plus everything still payable, at any fee its round can afford |
| `NinetailsSolvency.AlwaysSolvent` | contracts/wick-predict/src/lib.rs:335-617 | The balance covers fees, open stakes and all unclaimed payouts in every state of every run each of whose claims is made at a fee its round can afford |
| `NinetailsSolvency.ClaimNeverShort` | contracts/wick-predict/src/lib.rs:479-542 | In such a state no claim at a fee its round can afford fails for want of funds |
| `NinetailsSolvency.SweepNeverShort` | contracts/wick-predict/src/lib.rs:566-576 | In such a state no sweep fails for want of funds |
| `NinetailsFees.CoversExactlyWhen` | contracts/wick-predict/src/lib.rs:445-528 | A round settled at one fee and claimed at another covers every possible set of positions if and only if it can afford the second: the worst draw at that fee fits beside the fee already accrued |
| `NinetailsFees.HigherFeeSuffices` | contracts/wick-predict/src/lib.rs:445-528 | A round can afford every fee no lower than the one it was settled at |
| `NinetailsFees.LeastFeeIsLeast` | contracts/wick-predict/src/lib.rs:445-528 | The fees a round can afford are exactly those from a least one on |
| `NinetailsRuns.CutStrandsExactlyWhen` | contracts/wick-predict/src/lib.rs:479-585 | For all stakes, times of betting and pairs of fees: in the complete run from initialization in which two bet, the round is settled, the fees are swept and the fee is changed, one of the two claims fails for want of funds if and only if the round cannot afford the new fee |
| `NinetailsRuns.FeeCutStrandsAClaim` | contracts/wick-predict/src/lib.rs:578-585 | In particular with 1000 staked on each side, settled at 5% and claimed at 0% |
| `NinetailsConservation.PaysAtMostTheStakes` | contracts/wick-predict/src/lib.rs:195-249 | Fee and payouts of a decided round never exceed its two pools, whatever entries have expired |
| `NinetailsConservation.LeavesLittleDust` | contracts/wick-predict/src/lib.rs:495-528 | With all entries present at most winners + bettors - 1 stroops are left over |
| `NinetailsConservation.LosersShareTheRefundCut` | contracts/wick-predict/src/lib.rs:231-243 | The losing side in total gets back at most 3/10 of the distributed amount |
| `NinetailsAggregates.AggregatesStayAbove` | contracts/wick-predict/src/lib.rs:383-425 | In every run the stored pools and boosts are at least the sums over the live positions |
| `NinetailsExpiry.TotalsAccountForAll` | contracts/wick-predict/src/lib.rs:383-425 | In every run, whatever expires, pools and boosts are exactly the sums over the live positions and over those that expired along the run |
| `NinetailsExpiry.FreshAccounted` | contracts/wick-predict/src/lib.rs:304-331 | In a newly initialized market nothing has expired and the totals are so accounted for |
| `NinetailsExpiry.ExactExactlyWhen` | contracts/wick-predict/src/lib.rs:383-425 | In every run a round's totals equal the sums over its live positions if and only if none of its positions with a stake or boost expired |
| `NinetailsRuns.ExpiredStakeStays` | contracts/wick-predict/src/lib.rs:429-542 | For all stakes and times, a complete run from initialization in which the winner's position expires before settlement: the totals exceed the live positions and that stake stays behind in full |
| `NinetailsExpiry.RoundConserves` | contracts/wick-predict/src/lib.rs:195-528 | Fee and payouts of a decided round never exceed its pools, the losers together get at most 3/10 of the distributed amount and, where the totals are exact, at most winners + bettors - 1 stroops are left |
| `NinetailsExpiry.RunsConserve` | contracts/wick-predict/src/lib.rs:304-528 | For every decided round of every run from initialization: the two upper bounds whatever expires, the dust bound when no staked position of that round expired |
| `NinetailsAggregates.DenominatorsPositive` | contracts/wick-predict/src/lib.rs:204-236 | In every run, whatever expires and whatever the fees, both boost denominators of a decided round are positive, so the zero-denominator branches are never taken |
| `NinetailsAggregates.BetNeverOverflows` | contracts/wick-predict/src/lib.rs:383-425 | No checked operation of a bet overflows while stakes stay within B, remaining times within L and B^2 * L fits i128, solvent or not |
| `NinetailsAggregates.SettleNeverOverflows` | contracts/wick-predict/src/lib.rs:429-475 | Nor of a settlement in a solvent market: the fee accumulator is bounded by the balance |
| `NinetailsAggregates.ClaimNeverOverflows` | contracts/wick-predict/src/lib.rs:479-542 | Nor of a claim, solvent or not |
| `NinetailsAggregates.ModestKept` | contracts/wick-predict/src/lib.rs:383-425 | Those bounds are kept by every step whose bets respect them |
| `NinetailsAggregates.RunsNeverOverflow` | contracts/wick-predict/src/lib.rs:383-542 | Hence no bet and no claim of any such run overflows, whatever expires and however the fee is changed |
| `NinetailsAggregates.SettlementsNeverOverflow` | contracts/wick-predict/src/lib.rs:429-475 | Nor does any settlement of such a run each of whose claims is made at a fee its round can afford |
| `NinetailsAggregates.ClaimSucceeds` | contracts/wick-predict/src/lib.rs:479-542 | In a solvent market within those bounds every unclaimed position of a settled round can be claimed, is paid in full and only its own mark changes, if the round can afford the fee and the recipient's balance has room |
| `NinetailsAggregates.LocksFirstExactlyWhen` | contracts/wick-predict/src/lib.rs:304-331 | Every round of every run locks before it settles if and only if the offset given to initialize was below the interval (or too large to create a round with) |
| `NinetailsAggregates.BetsPrecedeSettlePrice` | contracts/wick-predict/src/lib.rs:390-393 | Then an accepted bet comes strictly before the lock and the lock before the settling price |
| `NinetailsSettlement.AlwaysFollows` | contracts/wick-predict/src/lib.rs:383-475 | In every run a round's pools and boosts are the sums over the bets it accepted, each before the lock, and its outcome the oracle's verdict on them at settle_ts |
| `Sums.ListSumIgnoresOrder` | contracts/wick-predict/src/lib.rs:404-425 | Those sums do not depend on the order of the bets, in this market and the next |
| `NinetailsSettlement.SettlementIsDetermined` | contracts/wick-predict/src/lib.rs:429-475 | Two runs that open a round on the same terms and accept the same bets settle it alike, whoever settles it and whenever, and at equal fee pay every position the same |
| `NinetailsSettlement.PoolsFrozen` | contracts/wick-predict/src/lib.rs:390-393 | From its lock on no run changes a round's pools, boosts or terms for as long as the round is there |
| `NinetailsBettors.PositionsAreBets` | contracts/wick-predict/src/lib.rs:383-425 | In every run each position is its user's last accepted bet on the round, boosted by the time it came before the lock |
| `NinetailsBettors.EarlierBettorIsPaidNoLess` | contracts/wick-predict/src/lib.rs:184-243 | Hence in every run from initialization, of two positions of a settled round with equal side and stake the one bet first is paid no less, at any fee |
| `NinetailsBettors.SplitStakesArePaidNoMore` | contracts/wick-predict/src/lib.rs:184-243 | And two positions bet at one moment on one side are together paid no more than one with both stakes, at most two stroops less, in a round that would have settled just so |
| `NinetailsContract.Market.constructor` | contracts/wick-predict/src/lib.rs:304-331 | Initialization yields the initial state, which is solvent |
| `NinetailsContract.Market.CreateRound` | contracts/wick-predict/src/lib.rs:335-373 | Takes the create step: struck at the tick's price, locked an offset and settled an interval after it, a fresh id, its error otherwise; keeps the solvency invariant |
| `NinetailsContract.Market.PlaceBet` | contracts/wick-predict/src/lib.rs:383-425 | Takes the bet step with the source's checks in order, its error otherwise: moves exactly the stake from the bettor and records it with its boost; keeps the invariant |
| `NinetailsContract.Market.Settle` | contracts/wick-predict/src/lib.rs:429-475 | Takes the settle step, its error otherwise: the outcome by the oracle's price against the strike, the fee of the losing pool; keeps the invariant |
| `NinetailsContract.Market.ComputePayout` | contracts/wick-predict/src/lib.rs:495-528 | Computes the checked payout of a position by the source's branches, exact when it does not panic |
| `NinetailsContract.Market.Claim` | contracts/wick-predict/src/lib.rs:479-542 | Takes the claim step, its error otherwise: the claimant and nobody else is paid, by the numbers above, what is returned; at a fee the round can afford it keeps the invariant and never lacks funds |
| `NinetailsContract.Market.SweepFees` | contracts/wick-predict/src/lib.rs:566-576 | Takes the sweep step, its error otherwise: exactly the fees go to the admin; keeps the invariant, under which it never lacks funds |
| `NinetailsContract.Market.SetFeeBps` | contracts/wick-predict/src/lib.rs:578-585 | Takes the fee step, accepted exactly up to 500; keeps the invariant |
| `NinetailsContract.Market.SetLockOffset` | contracts/wick-predict/src/lib.rs:587-602 | Takes the lock-offset step, accepted exactly from 10 to below the interval, with the source's error otherwise; keeps the invariant |
| `NinetailsContract.Market.SetOracleInterval` | contracts/wick-predict/src/lib.rs:604-617 | Takes the interval step, accepted exactly above the lock offset; keeps the invariant |
| `FairMarketSolvency.FreshIsSolvent` | contracts/fair-market/src/lib.rs:107-140 | A newly initialized market satisfies the solvency invariant |
| `FairMarketSolvency.AlwaysShaped` | contracts/fair-market/src/lib.rs:144-414 | In every run at all, whatever expires and however the fee is changed, pools are at least the sums over the live positions and every decided round has both |
| `FairMarketSolvency.StepKeeps` | contracts/fair-market/src/lib.rs:144-414 | Every entry point, claim_many included, and the expiry of any round or position keeps the shape of the books, and the solvency of the market when each claim is made at a fee its round can afford |
| `FairMarketSolvency.AlwaysSolvent` | contracts/fair-market/src/lib.rs:144-414 | The balance covers fees and all live claims in every state of every run with arbitrary expiry (a re-bet after expiry included) each of whose claims is made at a fee its round can afford |
| `FairMarketSolvency.ClaimNeverShort` | contracts/fair-market/src/lib.rs:313-326 | In such a state no claim at a fee its round can afford fails for want of funds |
| `FairMarketSolvency.ManyNeverShort` | contracts/fair-market/src/lib.rs:330-355 | Nor does any batch of claims whose rounds can all afford the fee |
| `FairMarketSolvency.SweepNeverShort` | contracts/fair-market/src/lib.rs:401-414 | In such a state no sweep fails for want of funds |
| `FairMarketSolvency.WinnersShare` | contracts/fair-market/src/lib.rs:494-525 | The winners together get at most the distributed pot and, no entry missing, less than one stroop each short of it |
| `FairMarketSolvency.CoversExactlyWhen` | contracts/fair-market/src/lib.rs:250-309 | A round settled at one fee and claimed at another covers every possible set of positions if and only if the later fee comes to no less |
| `FairMarketRuns.CutStrandsExactlyWhen` | contracts/fair-market/src/lib.rs:313-387 | For all stakes and pairs of fees: in the complete run from initialization in which both sides are bet on, the round is settled, the fees are swept and the fee is changed, the winner's claim fails for want of funds if and only if the round cannot afford the new fee |
| `FairMarketRuns.FeeCutStrandsTheWinner` | contracts/fair-market/src/lib.rs:378-387 | In particular with 1000 staked on each side, settled at 5% and claimed at 0% |
| `FairMarketClaims.BatchIsEach` | contracts/fair-market/src/lib.rs:330-355 | A batch over any list of ids succeeds exactly when claiming each in turn does, with the same total and final state |
| `FairMarketClaims.ClaimManyIsClaims` | contracts/fair-market/src/lib.rs:330-355 | Hence claim_many equals running claim on each id in turn, duplicates included |
| `FairMarketClaims.BatchPaysEachIdOnce` | contracts/fair-market/src/lib.rs:330-355 | A batch pays the sum over the distinct ids of what each was worth and marks exactly those positions |
| `FairMarketClaims.ClaimsCommute` | contracts/fair-market/src/lib.rs:313-326 | Any reordering of successful claims by any users succeeds and leaves the same state |
| `FairMarketSettlement.FreshFollows` | contracts/fair-market/src/lib.rs:107-140 | A new market satisfies the settlement invariant |
| `FairMarketSettlement.AlwaysFollows` | contracts/fair-market/src/lib.rs:195-309 | In every run a round's pools are the stakes it accepted, each before the lock, and its outcome the oracle's verdict on them at settle_ts |
| `FairMarketSettlement.SettlementIsDetermined` | contracts/fair-market/src/lib.rs:250-309 | Two runs agreeing on a round's terms, bets and oracle hold the same settled round, and at equal fee pay every position the same |
| `FairMarketRules.OutcomeFollowsPrice` | contracts/fair-market/src/lib.rs:250-309 | In every run from initialization a settled round's outcome is Up exactly at a price over the strike, Down exactly at one under it, with stakes on both sides, and Void otherwise, the price being the oracle's for its asset and settle_ts |
| `FairMarketRules.PayoutIsRight` | contracts/fair-market/src/lib.rs:494-525 | A position is paid its stake in a void round, nothing when it lost, and otherwise the pot less the fee by its stake in its side's, less than one stroop short and never more |
| `FairMarketRules.ClaimPaysClaimant` | contracts/fair-market/src/lib.rs:313-326 | A claim moves exactly what its id is worth by those numbers from the contract to the claimant, and nobody else's money |
| `FairMarketRules.ClaimManyPaysClaimant` | contracts/fair-market/src/lib.rs:330-355 | A batch moves exactly the sum of what its distinct ids are so worth |
| `FairMarketRules.BetAcceptedExactlyWhen` | contracts/fair-market/src/lib.rs:195-248 | Exactly which bets are accepted |
| `FairMarketSettlement.PoolsFrozen` | contracts/fair-market/src/lib.rs:206-211 | From its lock on no run changes a round's pools or terms for as long as the round is there |
| `FairMarketSettlement.OpenUntilLockExactlyWhen` | contracts/fair-market/src/lib.rs:389-399 | Betting stays open until the lock in every run keeping to offsets within the interval if and only if initialize was given such an offset |
| `FairMarketContract.Market.constructor` | contracts/fair-market/src/lib.rs:107-140 | Initialization yields the initial state, which is solvent |
| `FairMarketContract.Market.NextRoundId` | contracts/fair-market/src/lib.rs:439-444 | Hands out the next id, or none at the end of u64 |
| `FairMarketContract.Market.CreateRound` | contracts/fair-market/src/lib.rs:144-193 | Takes the create step, its error otherwise: one of four assets, struck at the tick's price, settled 300 seconds after it, the id the new counter; keeps the solvency invariant |
| `FairMarketContract.Market.PlaceBet` | contracts/fair-market/src/lib.rs:195-248 | Takes the bet step with the source's checks in order, its error otherwise: moves exactly the stake from the bettor and records it; keeps the invariant |
| `FairMarketContract.Market.Settle` | contracts/fair-market/src/lib.rs:250-309 | Takes the settle step, its error otherwise: the outcome by the oracle's price against the strike, the fee of the pot; keeps the invariant |
| `FairMarketContract.Market.ComputeClaim` | contracts/fair-market/src/lib.rs:478-526 | Computes what an id is worth to a user and marks the position, or reports a panic |
| `FairMarketContract.Market.ClaimAll` | contracts/fair-market/src/lib.rs:330-355 | The loop of a batch marks and totals what the batch does, and fails exactly when it does |
| `FairMarketContract.Market.Claim` | contracts/fair-market/src/lib.rs:313-326 | Takes the claim step, its error otherwise: the claimant and nobody else is paid what is returned, what the id is worth; at a fee the round can afford it keeps the invariant and never lacks funds |
| `FairMarketContract.Market.ClaimMany` | contracts/fair-market/src/lib.rs:330-355 | Takes the batch step, takes everything back on a panic: the claimant and nobody else is paid, in one transfer, the sum of what the distinct ids are worth; at a fee its rounds can afford it keeps the invariant and never lacks funds |
| `FairMarketContract.Market.SweepFees` | contracts/fair-market/src/lib.rs:401-414 | Takes the sweep step, its error otherwise: exactly the fees go to the admin; keeps the invariant, under which it never lacks funds |
| `FairMarketContract.Market.SetFeeBps` | contracts/fair-market/src/lib.rs:378-387 | Takes the fee step, accepted exactly up to 500; keeps the invariant |
| `FairMarketContract.Market.SetLockOffset` | contracts/fair-market/src/lib.rs:389-399 | Takes the lock-offset step, accepted exactly from 90 on; keeps the invariant |
| `EpochPipeline.OldRoundsUntouched` | contracts/prediction/src/lib.rs:213-342 | No call changes a round, in any field, once the epoch exceeds its own by more than two |
| `EpochPipeline.FrozenForever` | contracts/prediction/src/lib.rs:213-342 | Nor does any run |
| `EpochPipeline.ExecuteFinishes` | contracts/prediction/src/lib.rs:213-342 | A successful execute_round leaves nothing for the epoch to do |
| `EpochPipeline.ExecuteIsIdempotent` | contracts/prediction/src/lib.rs:223-231 | With nothing left to do, executing again in the same epoch succeeds and changes nothing, whatever calls came in between |
| `EpochPipeline.ExecuteTwice` | contracts/prediction/src/lib.rs:213-342 | From any state at all, a second execution in the epoch of a successful one changes nothing, whatever calls came in between and even if the oracle now answers differently |
| `EpochKeeper.RecoversExactlyWhen` | contracts/prediction/src/lib.rs:243-305 | After an execution every round below the epoch is closed, its own locked or cancelled and the next open, if and only if at most one whole epoch was skipped |
| `EpochKeeper.KeeperGap` | contracts/prediction/src/lib.rs:213-342 | After every run every round before the epoch last executed is closed, its own locked or cancelled and the next open, if and only if the keeper never skipped two whole epochs in a row |
| `EpochKeeper.KeeperGapFromGenesis` | contracts/prediction/src/lib.rs:128-203 | The same from deployment: any run, genesis_lock, then any run |
| `EpochKeeper.LongGapStrands` | contracts/prediction/src/lib.rs:243-305 | After a longer gap the round that was taking bets is left open behind the pipeline |
| `EpochKeeper.StrandedForever` | contracts/prediction/src/lib.rs:510-541 | Such a round stays open in every run and its stakes can be neither claimed nor refunded |
| `EpochStrands.MissedEpochsLoseAStake` | contracts/prediction/src/lib.rs:213-342 | A complete run from initialization in which the keeper skips two epochs and a stake is lost, whatever is called afterwards |
| `EpochStrands.LockSucceedsExactlyWhen` | contracts/prediction/src/lib.rs:128-145 | Between genesis_start and genesis_lock, the latter succeeds exactly in the one epoch the former opened, unless paused |
| `EpochStrands.RunsExactlyWhen` | contracts/prediction/src/lib.rs:113-145 | So an asset comes to life in a run if and only if genesis_lock is executed in that epoch; otherwise its round stays open and its bets are quoted zero |
| `EpochStrands.RunsFromStartExactlyWhen` | contracts/prediction/src/lib.rs:113-145 | The same from deployment: any run, genesis_start, then any run |
| `EpochStrands.DeadForever` | contracts/prediction/src/lib.rs:128-145 | Once that epoch is past no run revives the asset or frees the stakes on its one round |
| `EpochStrands.LateLockLosesAStake` | contracts/prediction/src/lib.rs:113-145 | A complete run from initialization in which a stake is lost so |
| `EpochPrices.ChainAlways` | contracts/prediction/src/lib.rs:236-305 | In every run, with an oracle that may answer each call differently, neighbouring rounds agree on the price between them |
| `EpochPrices.PricesChain` | contracts/prediction/src/lib.rs:236-305 | Hence a resolved round ends at the price the next round started from, if that one was ever locked |
| `EpochPrices.PricesPinned` | contracts/prediction/src/oracle.rs:53-73 | In every run, with an oracle that may answer each call differently, a resolved round started at a price some call read for n*300 and ended at one read for (n+1)*300, each no older than the staleness tolerance in force when it was read, however late the round was locked or closed |
| `EpochPrices.PricesAreTheOracles` | contracts/prediction/src/lib.rs:150-163 | Against one oracle they are therefore its own prices for those two timestamps |
| `EpochRules.FetchIsQuoted` | contracts/prediction/src/oracle.rs:53-73 | A read answers the oracle's price exactly when there is one no older than the tolerance |
| `EpochRules.ExecuteIsRight` | contracts/prediction/src/lib.rs:213-342 | What an execution makes of each round: a locked one of the last two epochs is cancelled exactly without a price, with a side empty or at a refunded tie, else resolved with its fee and pot; the current one is locked at the price or cancelled; a missed one is cancelled; the next is opened; the treasury gains exactly those fees; nothing else changes |
| `EpochRules.RefundsAreWhole` | contracts/prediction/src/lib.rs:663-680 | Of a locked round that comes due: exactly when it is cancelled and when resolved, and every unclaimed bet of a cancelled one is then quoted its whole stake |
| `EpochRules.LockedRoundsCloseRightly` | contracts/prediction/src/lib.rs:644-723 | In every run from deployment, whatever is called, a locked round stays as it is or is closed by that rule at a price read for the end of its epoch |
| `EpochRules.QuotesAreRight` | contracts/prediction/src/lib.rs:512-541 | In every run with a fee of at most 100% an unclaimed bet is quoted its stake in a cancelled round, in a resolved one its share of the pot by its stake in the winning side's, less than one stroop short, nothing when it lost, and nothing before |
| `EpochRules.BetAcceptedExactlyWhen` | contracts/prediction/src/lib.rs:346-406 | Exactly which bets are accepted |
| `EpochHistory.PushKeepsTail` | contracts/prediction/src/storage.rs:102-131 | Pushing onto the last 32 of an increasing history gives the last 32 of the longer one |
| `EpochHistory.AlwaysRemembers` | contracts/prediction/src/storage.rs:102-131 | The invariant tying list, full history and bet records holds in every run |
| `EpochHistory.BufferIsTail` | contracts/prediction/src/lib.rs:355-391 | In every run the list is the last min(k, 32) epochs of the user's k bets, strictly increasing; the history lists exactly the bets, each placed before n*300 |
| `EpochClaims.ClaimEpochsIsSum` | contracts/prediction/src/lib.rs:420-457 | A batch claim totals what each distinct listed epoch is worth and marks exactly those bets |
| `EpochClaims.RefundEpochsIsSum` | contracts/prediction/src/lib.rs:484-501 | A batch refund likewise over the distinct cancelled epochs |
| `EpochClaims.ClaimPaysTheQuotes` | contracts/prediction/src/lib.rs:414-474 | claim pays exactly the sum of claimable over the distinct resolved epochs listed; afterwards those are zero and every other quote is unchanged |
| `EpochClaims.RefundPaysTheQuotes` | contracts/prediction/src/lib.rs:478-508 | refund likewise over the distinct cancelled epochs |
| `EpochClaims.NothingToClaimExactlyWhen` | contracts/prediction/src/lib.rs:459-461 | claim is refused as empty exactly when the view quotes zero for every resolved epoch listed |
| `EpochWinners.AllPickTheAnnounced` | contracts/prediction/src/lib.rs:685-693 | For every round closed at a price and every bet, claim (lines 432-436) and view (lines 522-526) go by the side settlement announces, each by its own comparison; an exact tie with refunds off goes to Down in all three |
| `EpochWinners.ResolvedForever` | contracts/prediction/src/lib.rs:213-342 | A resolved round never changes again, in any run |
| `EpochWinners.AnnouncedSideWins` | contracts/prediction/src/lib.rs:414-541 | In every run from deployment: once an execution resolved a round and announced a side, ever after claim pays and the view quotes that side's unclaimed bets their share and the other side's nothing |
| `EpochSolvency.DustBounds` | contracts/prediction/src/math.rs:24-38 | A resolved round leaves between 0 and winners - 1 stroops of dust |
| `EpochAccounts.FreshIsBalanced` | contracts/prediction/src/lib.rs:73-102 | A new market satisfies the accounting identity |
| `EpochAccounts.StepBalanced` | contracts/prediction/src/lib.rs:108-621 | Every call keeps it, under any configuration with a fee of at most 100% |
| `EpochAccounts.AlwaysBalanced` | contracts/prediction/src/lib.rs:108-621 | In every run over all assets and epochs the balance is exactly the treasury, open and locked stakes, unclaimed refunds, unclaimed winnings, dust and donations |
| `EpochAccounts.NeverShort` | contracts/prediction/src/lib.rs:414-508 | No claim, refund or treasury sweep fails for want of funds |
| `EpochAccounts.DustInEveryRun` | contracts/prediction/src/math.rs:1-8 | In every reachable state each resolved round has between 0 and winners - 1 stroops of dust, in the balance and not in the treasury |
| `EpochRuns.FundedExactlyWhen` | contracts/prediction/src/lib.rs:579-621 | For every fee: no claim, refund or treasury sweep of any run from an initialization with that fee and keeping to it lacks funds if and only if the fee is at most 100% |
| `EpochRuns.FeeAboveWholeStrands` | contracts/prediction/src/math.rs:13-22 | For every fee above 100%, a complete run from initialization after which the treasury cannot be paid |
| `EpochContract.Market.constructor` | contracts/prediction/src/lib.rs:73-102 | Initialization yields the initial state with a tolerance of 60 seconds, unpaused, ties refunded; its accounts balance when the fee is at most 100% |
| `EpochContract.Market.GenesisStart` | contracts/prediction/src/lib.rs:108-126 | Takes the genesis_start step, its error otherwise: opens the next epoch's round; keeps the accounts balanced at a fee of at most 100% |
| `EpochContract.Market.GenesisLock` | contracts/prediction/src/lib.rs:128-203 | Takes the genesis_lock step, its error otherwise: locks the round at its price, or cancels it without, and opens the next; keeps the accounts balanced at a fee of at most 100% |
| `EpochContract.Market.SettleLockedRound` | contracts/prediction/src/lib.rs:644-723 | Closes a locked round: cancelled exactly without a price, with a side empty or at a refunded tie, else resolved with its fee added to the treasury and its winner announced; leaves any other round alone |
| `EpochContract.StagesAdvance` | contracts/prediction/src/lib.rs:243-342 | The stages of execute_round, one storage write after another, come out as moving every round of the asset at once |
| `EpochContract.StagesPay` | contracts/prediction/src/lib.rs:243-342 | Stages and fees together are the execute step, which panics exactly when one of the two fees does not fit |
| `EpochContract.Market.ExecuteRound` | contracts/prediction/src/lib.rs:213-342 | Takes the execute step, its error otherwise: moves every round by the rules above, or nothing when the epoch was executed before; keeps the accounts balanced at a fee of at most 100% |
| `EpochContract.PushUserEpoch` | contracts/prediction/src/storage.rs:102-131 | The scan and the rebuilding loop compute the bounded push |
| `EpochContract.Market.PlaceBet` | contracts/prediction/src/lib.rs:346-406 | Takes the bet step with the source's checks in order, its error otherwise: moves exactly the stake from the bettor and adds it to its side; keeps the accounts balanced at a fee of at most 100% |
| `EpochContract.Market.Claim` | contracts/prediction/src/lib.rs:414-474 | The loop takes the claim step, pays what the view quoted and takes everything back on a panic; keeps balanced accounts so, from which it never lacks funds |
| `EpochContract.Market.Refund` | contracts/prediction/src/lib.rs:478-508 | The loop takes the refund step and pays the quoted refunds; keeps balanced accounts so, from which it never lacks funds |
| `EpochContract.Market.ClaimableFor` | contracts/prediction/src/lib.rs:512-541 | The view, branch by branch as written there, quotes what the model's quote is |
| `EpochContract.Market.ClaimTreasury` | contracts/prediction/src/lib.rs:610-621 | Takes the treasury step, its error otherwise: exactly the treasury goes to its address; keeps balanced accounts so, from which it never lacks funds |
| `EpochContract.Market.SetConfig` | contracts/prediction/src/lib.rs:579-607 | Changes exactly the settings given and does not bound the fee |
| `EpochContract.Market.Pause` | contracts/prediction/src/lib.rs:563-569 | Sets the pause flag and nothing else |
| `EpochContract.Market.Unpause` | contracts/prediction/src/lib.rs:571-577 | Clears the pause flag and nothing else |
| `Indexer.RoundsFold` | indexer/src/db.ts:18-62 | Each rounds row is a fold of the events of its own round |
| `IndexerRules.RoundsTellTheLog` | indexer/src/db.ts:18-62 | Whenever the cursor moves in a schedule with known commit results: a round has a row exactly when the log behind the cursor creates it, with the asset, strike and times of its first creation, each in its own column, the pools of its last bet (zero before any) and its last settlement, if any |
| `IndexerRules.FirstTermsAt` | indexer/src/db.ts:29-33 | What the first creation of a round in a log is |
| `Indexer.RowsAt` | indexer/src/db.ts:65-105 | Exactly which keys a page adds to the bets and claims tables, and with which rows |
| `Indexer.ReplayAgain` | indexer/src/index.ts:153-155 | Recording a page a second time changes no table, given rounds created before their bets and settlements |
| `Indexer.Absorb` | indexer/src/index.ts:153-155 | Recording a page up to any event and then from its start equals recording it once, although pools pass through older values |
| `Indexer.BetsAgainExactlyWhen` | indexer/src/db.ts:78-85 | A second pass leaves the bets table alone exactly when no new bet comes before the creation, later in the page, of a round the tables lack |
| `IndexerRuns.CleanRounds` | indexer/src/db.ts:18-62 | The rounds table of a clean pass does not depend on where the log was cut into pages |
| `IndexerRuns.InterruptedKeeps` | indexer/src/index.ts:138-160 | A poll that dies or throws after any number of events keeps the convergence invariant |
| `IndexerRuns.CommitIsClean` | indexer/src/index.ts:176-188 | When the cursor moves, the tables equal one clean pass over the pages behind it |
| `IndexerRuns.ReplayConverges` | indexer/src/index.ts:138-199 | For every schedule of growth, crashes, retries and restarts with known commit results, each time the cursor moves all tables equal one clean in-order pass |
| `IndexerRuns.UnseenCommitDuplicates` | indexer/src/index.ts:176-188 | A schedule in which a cursor commit succeeds unseen records one bet twice |
| `IndexerCommits.ConvergesExactlyWhen` | indexer/src/index.ts:176-188 | All schedules converge to a clean pass if and only if commits are never stored unseen |
| `IndexerRows.CleanRows` | indexer/src/db.ts:65-105 | The tables' keys are those of the bets and claims behind the cursor, each row that of an event with its key |
| `IndexerPages.SameKeyExactlyWhen` | indexer/src/db.ts:79-84 | Two events get one key exactly when they are of one transaction and a multiple of the page size, 200, apart in the log, wherever its pages were cut |
| `IndexerPages.RowPerEventExactlyWhen` | indexer/src/index.ts:138-199 | For every schedule with known commit results over a log that grows by whole transactions: a table has one row per event behind the cursor if and only if no two such events of one transaction lie a multiple of 200 apart |
| `IndexerPages.EveryEventOnce` | indexer/src/index.ts:138-199 | In particular if no transaction spans a page, both tables hold exactly one row for each event, with its contents |
| `IndexerPages.LongTransactionLosesARow` | indexer/src/index.ts:138-199 | A log and schedule in which two bets of one transaction, 200 positions apart, come to one row |
| `IndexerService.Service.InsertBet` | indexer/src/db.ts:65-87 | Inserts if absent and writes the pools; fails exactly when the row is new and its round missing |
| `IndexerService.Service.UpsertRound` | indexer/src/db.ts:18-35 | Inserts a round, with its terms, no pools and no settlement, if absent |
| `IndexerService.Service.SettleRound` | indexer/src/db.ts:49-62 | Overwrites outcome and price of an existing round |
| `IndexerService.Service.UpdateRoundPools` | indexer/src/db.ts:37-47 | Overwrites the pools of an existing round |
| `IndexerService.Service.InsertClaim` | indexer/src/db.ts:89-105 | Inserts a claim if absent |
| `IndexerService.Service.ProcessEvent` | indexer/src/index.ts:76-134 | One event in its own transaction, rolled back if a statement fails |
| `IndexerService.Service.Poll` | indexer/src/index.ts:138-160 | The loop records the page after the cursor, or part of it if it dies, and answers the next cursor |
| `IndexerService.Service.Turn` | indexer/src/index.ts:174-199 | One turn of the main loop takes the schedule's step |
| `ApiQuote.QuoteWithinOneStroop` | api/src/db.ts:58-69 | The quote, as an exact rational, differs from the on-chain payout by strictly less than one stroop for every settled position at the same fee, and not at all for void rounds and losers |
| `ApiQuote.QuotesAgreeInEveryRun` | api/src/db.ts:58-69 | Hence for every settled position of every state any run reaches, however the fee is changed along it |
| `ApiQuote.PayableIsListed` | api/src/db.ts:79-80 | The filter hides no position that pays anything |

## Left out

- Authorization (`require_auth`), `set_admin`, `upgrade`: host calls and single-field writes.
- The contract's own address never acts as a bettor: it cannot authorize a call.
- A second `initialize` and calls before the first: an object exists only once constructed.
- Events the contracts publish: outputs that no state depends on.
- TTL thresholds and bumps: expiry is an arbitrary deletion for the Ninetails and fair markets; the archival of the epoch market's persistent entries is not modelled.
- The token contract beyond a balance sheet and a transfer; contract code does not run inside a transfer.
- The oracle contract: `contracts/test-oracle` ignores the timestamp and does not fit the assumption that an answer depends on asset and timestamp alone.
- `interval_secs` of the epoch market is the constant 300 that `initialize` stores; nothing changes it.
- The u32 count of a batch cannot overflow within a transaction's limits and is a natural number.
- EpochContract.Market.SetConfig: a run's configuration step replaces the whole record, so runs cover more than the setters allow.
- NinetailsConservation.LeavesLittleDust: needs every entry of the round present, because what an expired position would have drawn stays in the balance.
- IndexerCommits.ConvergesExactlyWhen: speaks of all schedules together; which single schedules converge in spite of an unseen commit depends on the events read in between and is not stated.
- IndexerRuns.ReplayConverges: transient database failures that lose a single event's transaction are not modelled; the code logs and skips such an event.
- Event decoding (`topic`, `body`): the model starts from decoded events. The expected topic layout differs from what the fair market publishes (`contracts/fair-market/src/lib.rs:186-189`).
- `NOW()` columns, serial ids, the leaderboard view, seven-day event retention and the first poll without a cursor.
- The API's join with the claims table and its `FEE_BPS` setting: the theorem takes the fee in force.
- Keepers, RPC helpers, transaction polling, REST routes, WebSocket hub, price tickers, generated bindings and scripts.
