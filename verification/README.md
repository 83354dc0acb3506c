# Staking model

A Dafny model of the `allychain-staking` pallet (`pallets/allychain-staking/src/lib.rs`), of the
sorted-vector set it is built on (`set.rs`), and of the two storage migrations and two hotfix calls
that build or repair its invariants (`migrations.rs`).

The pallet keeps the same facts in several storage items: a delegator's record and the two lists of
its candidates, cached totals and extremes, the candidate pool, `Total`, and the currency held for
every account. The project proves that the copies agree after every call, in every run, and says
exactly which calls break which agreement.

## How it is laid out

Every piece of code that changes state in place is a class or a method with the same branches, the
same order of checks and the same errors. Its contract equates the new state with a function of the
old one, and the properties are proved of those functions: what they keep, in every state of every run, and
what they do. The second kind is stated without the functions: in terms of stakes in a delegator's record
and in a candidate's lists, amounts held and free, requests, statuses and pool entries of the ledger
before and the ledger after (`Facts`), down to what does not change.

| files | what they hold |
|---|---|
| `Params`, `Bonds`, `Sums` | configuration constants; lists of bonds with the measures `Sum`, `StakeOf`, `Count`; totals over maps |
| `OrderedSets`, `DelegationLists`, `CandidateMetadatas`, `DelegatorStates`, `Storages`, `Extrinsics`, `DelegationExtrinsics`, `RoundStorages` | the code: set, lists, candidate and delegator records, storage, the extrinsics, the block hooks |
| `Queues`, `Candidates`, `Delegators`, `Ledgers`, `Transitions`, `Calls`, `Rounds`, `Payments`, `Selection` | the same as values, with the invariants |
| `CandidateCalls`, `DelegatorCalls`, `Exits`, `Runs`, `Gaps`, `Delays`, `TopK`, `Guarantees`, `RoundRuns` | the theorems over calls, runs and chains of blocks |
| `Facts`, `CandidateEffects`, `DelegatorEffects`, `ExitEffects`, `Effects`, `Refusals`, `RoundEffects` | what every call, error, payment, selection and reward means, read off the storage before and after |
| `SplitMigration`, `Repairs` | migrations and hotfixes, code and theorems |
| `Counterexamples` | concrete runs and states in which a promise of the storage items fails |

The three ledger invariants:

* `Consistent` holds in every run: candidates' caches agree with their lists, delegators' records with
  their pending requests, both records of a delegation with each other, the pool with the active
  candidates, and enough is held for everybody.
* `Conserved` (holds exact, pending revocations for the whole stake, `Total` at most all capital) is
  kept by a call if and only if the call is not a bond-more on a delegation awaiting revocation. It is
  stronger than exact holds: after such a bond-more the holds are still exact, and stop being so when
  the revocation is carried out.
* `Exact` (`Total` equal to all capital, no bottom total ahead of its list) is kept, on a conserved
  ledger, if and only if the call does not decrease a delegation in a bottom list. It, too, is stronger
  than `Total` being right: after such a decrease `Total` is still right, and stops being so when the
  candidate leaves.

Each copy by itself, to the unit, from any consistent ledger (`Gaps`):

* what is held is exact after a call if and only if it was before and the call does not carry out a
  revocation for less than the whole stake; what is held in excess is all that such revocations left;
* `Total`, if it was all capital, is so after a call if and only if the call is neither such a
  revocation nor the exit of a candidate whose bottom total runs ahead while others have capital staked;
* a bottom total runs ahead of its list by exactly what was taken by decreases inside the list since the
  candidate joined; what `Total` falls short by is the lead of candidates that left, less what such
  revocations left in it.

## Where the code falls short of its documentation or design

The model follows the code.

* `Delegator::increase_delegation` does not look at pending requests, while a revocation stores the
  amount at scheduling time: bonding more in between leaves an amount held that nothing releases
  (`Counterexamples.HoldsStayBehind`, a run from an empty chain; exactly when: `Gaps.RunHoldsIff`). Or,
  when the stored amount points to the bottom list and the delegation is in top, the revocation is
  refused with `DelegationDNE` (`Counterexamples.RevocationMisses`; exactly when:
  `Guarantees.RequestsFindTheirDelegation`); it can still be cancelled.
* `decrease_bottom_delegation` changes an entry and not the list's total, although the field is
  documented as the total of the list (`Counterexamples.BottomTotalRunsAhead`; by how much:
  `Gaps.ChainGaps`). `execute_leave_candidates` subtracts that total from `Total`
  (`Counterexamples.TotalFallsBehind`; exactly when: `Gaps.RunTotalIff`).
* `hotfix_update_candidate_pool_value` calls `update_active` for any candidate, although that function
  requires an active one (`Counterexamples.HotfixBreaksPool`; exactly when: `Repairs.HotfixPoolIff`).
* Reward points saturate as a `u32`, the parts computed from them do not: authors with more points than
  a round can record are paid more than its reward (`RoundRuns.SaturationOverpays`, which takes more than
  214 million blocks by each of two authors; exactly when: `RoundRuns.RoundBoundIff`).
* The split migration removes kicked delegations but not the requests on them
  (`Counterexamples.SplitForgetsRequest`; exactly when: `SplitMigration.ConsistentIff`);
  `hotfix_remove_delegation_requests` is the cure (`Repairs.HotfixRequestsIff`).

## Assumptions

* Both list capacities, `MinDelegation` and `RewardPaymentDelay` are at least 1, and
  `MinDelegatorStk` is at least `MinDelegation`; otherwise the configuration is arbitrary.
* Balances are unbounded: total issuance is taken to fit `u128`, so additions do not saturate.
  Subtractions saturate as in the code and are proved exact where the invariants need it.
* Currency: `reserve` fails exactly when the free balance is too small, `unreserve` releases at most
  what is held, and a deposit succeeds only for an account with a balance. The `reserved` map is what
  this pallet holds.
* `Perbill::from_rational` rounds down; multiplying by a `Perbill` or `Percent` rounds to the nearest
  unit, halves down.
* `Vec::sort` and `sort_by` are stable sorts; storage maps and `drain` iterate in any order.

## Model

| member | source | states |
|---|---|---|
| OrderedSets.OrderedSet.From | pallets/allychain-staking/src/set.rs:38-42 | the set built from any vector is strictly sorted, has the owners of the vector, and is the vector itself if that was a set |
| OrderedSets.OrderedSet.BinarySearch | pallets/allychain-staking/src/set.rs:52-57 | an index of the owner, or the one place where it belongs |
| OrderedSets.OrderedSet.Insert | pallets/allychain-staking/src/set.rs:52-60 | inserts exactly when the owner is absent, in its place; order kept, otherwise unchanged |
| OrderedSets.OrderedSet.Remove | pallets/allychain-staking/src/set.rs:64-72 | removes exactly the owner's bond and reports whether there was one; order kept |
| OrderedSets.OrderedSet.Contains | pallets/allychain-staking/src/set.rs:75-77 | the binary search answers membership |
| OrderedSets.OrderedSet.Clear | pallets/allychain-staking/src/set.rs:80-82 | leaves the empty set |
| OrderedSets.FromIsSet | pallets/allychain-staking/src/set.rs:38-42 | sort and dedup give a set with the same owners and leave a set as it is |
| DelegationLists.Delegations.InsertSortedGreatestToLeast | pallets/allychain-staking/src/lib.rs:297-329 | whichever equal entry the search hits, the scan ends and the entry goes behind all entries at least as large; the total grows by it and the order is kept |
| TopK.InsertIsSplit | pallets/allychain-staking/src/lib.rs:297-329 | sorted insertion is (entries at least as large) ++ [new] ++ (smaller entries): first come, first served |
| Bonds.InsertDescMultiset | pallets/allychain-staking/src/lib.rs:297-329 | sorted insertion keeps all entries and adds one |
| Queues.EnqueueKeepsOk | pallets/allychain-staking/src/lib.rs:589-750 | adding a delegation keeps top ++ bottom descending, both within capacity, bottom waiting only behind a full top, one entry per delegator |
| Queues.DequeueKeepsOk | pallets/allychain-staking/src/lib.rs:754-866 | removing one keeps that invariant |
| Queues.RaiseKeepsOk | pallets/allychain-staking/src/lib.rs:868-1017 | increasing one keeps it, also when the entry moves up and the lowest top entry down |
| Queues.LowerKeepsOk | pallets/allychain-staking/src/lib.rs:1019-1173 | decreasing one keeps it, also when the entry moves down and the highest bottom entry up |
| Queues.EnqueueStakes | pallets/allychain-staking/src/lib.rs:589-750 | the new entry joins with its amount, the kicked one leaves with its own, and nobody else's stake changes |
| Queues.DequeueStakes | pallets/allychain-staking/src/lib.rs:783-866 | only the removed delegator's stake goes |
| Queues.RaiseStakes | pallets/allychain-staking/src/lib.rs:899-1017 | only the delegator's stake grows, by the amount, whichever lists the entries move between |
| Queues.LowerStakes | pallets/allychain-staking/src/lib.rs:1055-1173 | only the delegator's stake shrinks, by the amount |
| TopK.TopHoldsLargest | pallets/allychain-staking/src/lib.rs:635-669 | the top list holds the `MaxTop` largest delegations, or all when fewer; the bottom list the rest in order, by a reference that sorts everything |
| TopK.KeepsLargest | pallets/allychain-staking/src/lib.rs:589-750 | after an offer the amounts kept are the largest `MaxTop + MaxBottom` of the old ones and the new one; it is refused exactly when it would itself be cut off, and what is kicked is what the reference cuts off |
| TopK.SortIsStable | pallets/allychain-staking/src/lib.rs:899-934 | sorting keeps delegations of the same amount in order |
| TopK.DequeueKeepsOrder | pallets/allychain-staking/src/lib.rs:783-866 | when a delegation ends all others keep their order across both lists: the first one waiting takes the free place |
| Candidates.WhereStakeIs | pallets/allychain-staking/src/lib.rs:763-780 | a true amount in top is at least the cached lowest top; in bottom, at most the cached highest bottom |
| Candidates.DispatchIsSound | pallets/allychain-staking/src/lib.rs:763-780 | with the true amount, choosing the list by cached extremes finds the entry, also in the tie of lowest top and highest bottom |
| Candidates.ReachesIff | pallets/allychain-staking/src/lib.rs:763-780 | with a claimed amount up to the true one, the search misses an entry if and only if it is in a full top list and the claim is below the list's lowest entry |
| CandidateMetadatas.CandidateMetadata.ResetTopData | pallets/allychain-staking/src/lib.rs:554-572 | caches of the top list recomputed; an active candidate's pool entry follows its counted total |
| CandidateMetadatas.CandidateMetadata.ResetBottomData | pallets/allychain-staking/src/lib.rs:573-585 | caches of the bottom list recomputed |
| CandidateMetadatas.CandidateMetadata.AddDelegation | pallets/allychain-staking/src/lib.rs:589-632 | refuses exactly what the bounded queue refuses and then changes nothing; otherwise storage is that of the queue with the entry added and every cache recomputed, and the remainder is exactly the kicked amount, if one was kicked |
| CandidateMetadatas.CandidateMetadata.AddTopDelegation | pallets/allychain-staking/src/lib.rs:636-672 | the same, for an entry that belongs in top; the lowest top entry moves to bottom when top is full |
| CandidateMetadatas.CandidateMetadata.AddBottomDelegation | pallets/allychain-staking/src/lib.rs:674-750 | the lowest bottom entry is kicked exactly when bottom is full: its currency is released, its delegator's record and pending request go, and the count stays right |
| CandidateMetadatas.CandidateMetadata.KickLowest | pallets/allychain-staking/src/lib.rs:694-737 | the kicked delegation disappears on both sides; a delegator without any left is removed; its record is there to be found |
| CandidateMetadatas.CandidateMetadata.RmDelegationIfExists | pallets/allychain-staking/src/lib.rs:754-780 | fails with `DelegationDNE` and no effect exactly when dispatch by the claimed amount misses the entry; else the entry is out and every cache right |
| CandidateMetadatas.CandidateMetadata.RmTopDelegation | pallets/allychain-staking/src/lib.rs:783-830 | removal from top; the highest bottom entry takes the place; caches right; without the entry, no effect |
| CandidateMetadatas.CandidateMetadata.RmBottomDelegation | pallets/allychain-staking/src/lib.rs:834-866 | removal from bottom; caches right; without the entry, no effect |
| CandidateMetadatas.CandidateMetadata.IncreaseDelegation | pallets/allychain-staking/src/lib.rs:868-897 | with the true amount before, reaches the list that holds the entry; storage is that of the queue with the stake raised |
| CandidateMetadatas.CandidateMetadata.IncreaseTopDelegation | pallets/allychain-staking/src/lib.rs:899-934 | raised in top, order and caches restored; a missing entry changes nothing |
| CandidateMetadatas.CandidateMetadata.IncreaseBottomDelegation | pallets/allychain-staking/src/lib.rs:936-1017 | raised in bottom, or promoted with the lowest top entry demoted, exactly when it exceeds the lowest top |
| CandidateMetadatas.CandidateMetadata.DecreaseDelegation | pallets/allychain-staking/src/lib.rs:1019-1053 | with the true amount before, reaches the list that holds the entry; the bottom total drifts by the amount exactly when the entry was in bottom |
| CandidateMetadatas.CandidateMetadata.DecreaseTopDelegation | pallets/allychain-staking/src/lib.rs:1055-1138 | lowered in top, or demoted with the highest bottom entry promoted, exactly when it falls below the highest bottom |
| CandidateMetadatas.CandidateMetadata.DecreaseBottomDelegation | pallets/allychain-staking/src/lib.rs:1140-1173 | lowered in bottom; the list's total is left ahead of its entries by the amount |
| CandidateMetadatas.CandidateMetadata.ScheduleLeave | pallets/allychain-staking/src/lib.rs:433-441 | leaving is scheduled its delay ahead, once |
| CandidateMetadatas.CandidateMetadata.CanLeave | pallets/allychain-staking/src/lib.rs:442-452 | leaving is due exactly when scheduled and its round has come |
| CandidateMetadatas.CandidateMetadata.BondMore | pallets/allychain-staking/src/lib.rs:459-476 | bond, counted total, `Total` and the amount held grow together, or nothing changes |
| CandidateMetadatas.CandidateMetadata.ScheduleBondLess | pallets/allychain-staking/src/lib.rs:477-500 | one request at a time, and none that would leave less than the minimum |
| CandidateMetadatas.CandidateMetadata.ExecuteBondLess | pallets/allychain-staking/src/lib.rs:504-535 | a due request takes its amount out of bond, counted total, `Total`, the amount held and an active candidate's pool entry, and is gone |
| DelegatorStates.DelegatorState.AddDelegation | pallets/allychain-staking/src/lib.rs:1384-1392 | added exactly when the candidate was not delegated to; total grows by it |
| DelegatorStates.DelegatorState.RmDelegation | pallets/allychain-staking/src/lib.rs:1395-1417 | the delegation and its amount go; the remaining total is reported exactly when there was one |
| DelegatorStates.DelegatorState.ScheduleRevoke | pallets/allychain-staking/src/lib.rs:1516-1536 | a revocation of the whole current stake is recorded, due its delay later, unless there is no delegation or a request already |
| DelegatorStates.DelegatorState.ScheduleDecrease | pallets/allychain-staking/src/lib.rs:1469-1501 | a decrease is recorded only if delegation and delegator would keep their minima after all pending requests |
| DelegatorStates.DelegatorState.CancelPendingRequest | pallets/allychain-staking/src/lib.rs:1662-1684 | a cancelled request is out of the map and of both totals |
| DelegatorStates.DelegatorState.CanExecuteLeave | pallets/allychain-staking/src/lib.rs:1354-1369 | which of the three reasons, in order, keeps a delegator from leaving, or none |
| Delegators.DropRequestOk | pallets/allychain-staking/src/lib.rs:1662-1684 | removing any request leaves exact totals, and neither subtraction saturates |
| Delegators.LessTotalWithinTotal | pallets/allychain-staking/src/lib.rs:1487-1494 | what is pending never exceeds what is staked |
| Delegators.DropOk | pallets/allychain-staking/src/lib.rs:711-737 | the record without one delegation and its request meets the whole delegator invariant |
| Delegators.LowerOk | pallets/allychain-staking/src/lib.rs:1612-1660 | so does the record with a pending decrease carried out |
| Extrinsics.JoinCandidates | pallets/allychain-staking/src/lib.rs:2696-2737 | an account in neither role, with enough bond and free currency, becomes an active candidate: bond held, pool entry added, `Total` raised; each refusal in the code's order, without effect; all invariants kept |
| Extrinsics.ScheduleLeaveCandidates | pallets/allychain-staking/src/lib.rs:2742-2765 | the candidate leaves the pool at once and may exit after the delay; all invariants kept |
| Extrinsics.CancelLeaveCandidates | pallets/allychain-staking/src/lib.rs:2839-2865 | a leaving candidate is active again and back in the pool with its current counted total; all invariants kept |
| Extrinsics.GoOffline | pallets/allychain-staking/src/lib.rs:2868-2882 | an active candidate leaves the pool and is idle, any other is refused; all invariants kept |
| Extrinsics.GoOnline | pallets/allychain-staking/src/lib.rs:2885-2905 | an idle candidate is back in the pool with its current counted total, an active or leaving one is refused; all invariants kept |
| Extrinsics.CandidateBondMore | pallets/allychain-staking/src/lib.rs:2908-2921 | bond, amount held, `Total` and the pool entry of an active candidate grow by the same amount, or nothing changes; all invariants kept |
| Extrinsics.ScheduleCandidateBondLess | pallets/allychain-staking/src/lib.rs:2924-2938 | at most one request, never below the minimum bond; nothing else changes |
| Extrinsics.ExecuteCandidateBondLess | pallets/allychain-staking/src/lib.rs:2941-2950 | a due decrease releases its amount from bond, hold, `Total` and pool entry alike; all invariants kept |
| Extrinsics.CancelCandidateBondLess | pallets/allychain-staking/src/lib.rs:2953-2965 | the request is gone and nothing else changes |
| Extrinsics.ScheduleLeaveDelegators | pallets/allychain-staking/src/lib.rs:3051-3063 | a delegator not leaving yet may exit after the delay; nothing else changes |
| Extrinsics.CancelLeaveDelegators | pallets/allychain-staking/src/lib.rs:3096-3108 | a leaving delegator stays; nothing else changes |
| Extrinsics.ScheduleRevokeDelegation | pallets/allychain-staking/src/lib.rs:3111-3126 | a request for the whole stake on one delegation, at most one per delegation; all invariants kept |
| Extrinsics.ScheduleDelegatorBondLess | pallets/allychain-staking/src/lib.rs:3141-3157 | a request that leaves delegation and delegator their minima, at most one per delegation; all invariants kept |
| Extrinsics.CancelDelegationRequest | pallets/allychain-staking/src/lib.rs:3172-3185 | the request is gone and pending totals follow; all invariants kept |
| DelegationExtrinsics.Delegate | pallets/allychain-staking/src/lib.rs:2968-3046 | checks and errors in the code's order; on success the delegation is in both records, a kicked one in neither, `Total` and holds move by the net amounts; all invariants kept |
| DelegationExtrinsics.DelegatorBondMore | pallets/allychain-staking/src/lib.rs:3129-3138 | the raised delegation on both sides; what is held, `Total` and bottom totals follow to the unit, whatever is pending; pending revocations stay for the whole stake if and only if the delegation awaits none |
| DelegationExtrinsics.DelegatorLeavesCandidate | pallets/allychain-staking/src/lib.rs:3223-3242 | the candidate forgets the delegator and the given amount is released, or nothing changes |
| DelegationExtrinsics.ExecuteDelegationRequest | pallets/allychain-staking/src/lib.rs:1537-1660 | a due revocation or decrease is carried out on both sides, with every check and error in order; consistency and conservation kept |
| DelegationExtrinsics.ExecuteLeaveDelegators | pallets/allychain-staking/src/lib.rs:3066-3092 | all delegations end, each on both sides, and the record goes; the branch that logs corrupted storage is never reached; all invariants kept |
| DelegationExtrinsics.ExecuteLeaveCandidates | pallets/allychain-staking/src/lib.rs:2769-2834 | every delegation and the bond are released with their true amounts and the candidate's items removed; a delegator whose last delegation this was is removed |
| DelegatorCalls.DelegateKeeps | pallets/allychain-staking/src/lib.rs:2968-3046 | consistency, conservation and exact `Total` survive a delegation, with or without a kick |
| DelegatorCalls.DelegatorBondMoreKeeps | pallets/allychain-staking/src/lib.rs:1418-1467 | always consistent, and always balanced: no account is held more or less in excess, `Total` stays right, no bottom total moves ahead; `Conserved`, which also has pending revocations for the whole stake, is kept if and only if the call fails, adds nothing, or no revocation is pending on the delegation |
| DelegatorCalls.ExecuteDelegationRequestKeeps | pallets/allychain-staking/src/lib.rs:1537-1660 | consistent and conserving; `Exact` survives if and only if no decrease happens in a bottom list |
| DelegatorCalls.ExecuteDelegationRequestGaps | pallets/allychain-staking/src/lib.rs:1537-1660 | for any consistent ledger: what stays held, and stays in `Total`, is what a revocation for less than the stake did not release, and only a decrease inside a bottom list moves a bottom total ahead, by its amount |
| DelegatorCalls.RevokeConservesIff | pallets/allychain-staking/src/lib.rs:1580-1590 | releasing a stored amount keeps holds exact if and only if it is the whole stake |
| Exits.ExecuteLeaveDelegatorsKeeps | pallets/allychain-staking/src/lib.rs:3066-3092 | a delegator's exit keeps everything: no stake, hold or total is left behind |
| Exits.ExecuteLeaveCandidatesKeeps | pallets/allychain-staking/src/lib.rs:2769-2834 | a candidate's exit keeps everything, for any number of delegators |
| Runs.StepTheorem | pallets/allychain-staking/src/lib.rs:2694-3186 | one call from any consistent ledger: consistency always; `Conserved` if and only if guarded; `Exact` if and only if, besides, no bottom decrease |
| Runs.RunConsistent | pallets/allychain-staking/src/lib.rs:2694-3186 | every reachable ledger is consistent, whatever was called in whatever order |
| Runs.RunConserved | pallets/allychain-staking/src/lib.rs:2694-3186 | reserve conservation and `Total` tracking over every guarded run |
| Runs.LedgerTheorem | pallets/allychain-staking/src/lib.rs:2694-3186 | from an empty chain: amounts held equal self bond plus delegations for every account, `Total` at most all capital, and equal to it in runs without a bottom decrease |
| Gaps.GapTheorem | pallets/allychain-staking/src/lib.rs:2694-3186 | one call, from any consistent ledger: excess holds grow by exactly what a stale revocation leaves and by nothing else, a bottom total's lead by exactly a decrease inside its list, what `Total` falls short by exactly such a rest and the lead of a candidate that leaves; a right `Total` goes wrong if and only if the call is a stale revocation or the exit of a drifted candidate that is not alone |
| Gaps.StepHoldsIff | pallets/allychain-staking/src/lib.rs:1580-1590 | holds are exact after a call if and only if they were before and the call is no successful revocation for less than the stake |
| Gaps.StepTotalIff | pallets/allychain-staking/src/lib.rs:2769-2834 | a right `Total` stays right in a call if and only if the call is no stale revocation and no exit of a drifted candidate that is not alone |
| Gaps.StepShortfall | pallets/allychain-staking/src/lib.rs:2769-2834 | from any gap: a call adds to the shortfall of `Total` the lead of a candidate that leaves, and takes off what a stale revocation leaves, unless more than `Total` holds would go: then it is zero |
| Gaps.ExecuteLeaveCandidatesGaps | pallets/allychain-staking/src/lib.rs:2769-2834 | an exit leaves nothing held, all capital falls by the candidate's, and the shortfall of `Total` grows by the bottom total's lead, up to all capital left; a right `Total` stays right if and only if there was no lead or nothing else is staked |
| Gaps.RunSurplus | pallets/allychain-staking/src/lib.rs:2694-3186 | over any run, what is held for an account beyond bond and delegations grows by exactly what the run's stale revocations left |
| Gaps.RunAhead | pallets/allychain-staking/src/lib.rs:1140-1173 | over any run from a ledger without candidates, a bottom total's lead is exactly what decreases inside its list took since the candidate last joined |
| Gaps.RunHoldsIff | pallets/allychain-staking/src/lib.rs:1580-1590 | holds are exact at the end of a run if and only if no stale revocation was carried out in it |
| Gaps.RunTotalIff | pallets/allychain-staking/src/lib.rs:2769-2834 | `Total` is all capital throughout a run if and only if the run has no stale revocation and no exit of a drifted candidate that is not alone |
| Gaps.RunShortfall | pallets/allychain-staking/src/lib.rs:2769-2834 | over any run in which no call would take more out of `Total` than it holds, the shortfall grows by exactly what the calls strayed |
| Gaps.ChainGaps | pallets/allychain-staking/src/lib.rs:2694-3186 | all of it from an empty chain: held == bond + delegations + what stale revocations left, for every account; bottom total == sum of the list + bottom decreases since the candidate joined; `Total` + strays == all capital when it never saturated; and exactly when `Total` is right throughout |
| Guarantees.TwoWayIndex | pallets/allychain-staking/src/lib.rs:1418-1467 | in every reachable state a delegation is in its delegator's record if and only if it occurs exactly once, with that amount, in its candidate's lists; no account is both candidate and delegator |
| Guarantees.PoolIsIndex | pallets/allychain-staking/src/lib.rs:3199-3207 | in every reachable state the pool is strictly sorted and holds exactly the active candidates with their counted totals |
| Guarantees.CandidateBooks | pallets/allychain-staking/src/lib.rs:379-401 | in every reachable state a candidate's top list is its largest delegations, all cached metadata and the top total are what the lists say, the bottom total is at least the list's sum (how far above: `Gaps.ChainGaps`), and the bond is at least the minimum |
| Guarantees.DelegatorBooks | pallets/allychain-staking/src/lib.rs:1705-1712 | in every reachable state a delegator's total and pending totals are exact, and every request is on a current delegation and within it |
| Guarantees.RequestsFindTheirDelegation | pallets/allychain-staking/src/lib.rs:1537-1660 | on any consistent ledger a request carried out finds its candidate, and is refused with `DelegationDNE` if and only if it is a due revocation that passes the minimum, the delegation is in a full top list and the stored amount is below everything in that list; the delegation then exists and is for another amount |
| Guarantees.ConservedFinds | pallets/allychain-staking/src/lib.rs:1537-1660 | where pending revocations are for the whole stake no request misses its delegation |
| Guarantees.CallsKeepHoldings | pallets/allychain-staking/src/lib.rs:2694-3186 | no call moves currency between accounts, creates it or destroys it |
| Effects.EffectTheorem | pallets/allychain-staking/src/lib.rs:2694-3186 | each of the 19 calls, on any consistent ledger: it succeeds if and only if the guards listed on the ledger before hold; then the facts listed change by the amounts listed and no other stake, hold, request, record, candidate or pool entry does; otherwise nothing changes |
| Effects.RunEffects | pallets/allychain-staking/src/lib.rs:2694-3186 | the same for every step of every run from an empty chain |
| Refusals.ErrorTheorem | pallets/allychain-staking/src/lib.rs:2694-3186 | whatever error a call is refused with, the reason it names is true of the ledger before |
| DelegatorEffects.ExecuteRequestEffect | pallets/allychain-staking/src/lib.rs:1537-1660 | after a revocation the stake is zero on both sides, exactly the stored amount is free again, and the owner is a delegator still if and only if it has another delegation; after a decrease stake and hold are lower by exactly the amount, in top and in bottom; the request is gone, and every other stake, hold, request and record is as before |
| DelegatorEffects.DelegateEffect | pallets/allychain-staking/src/lib.rs:2968-3046 | a delegation is accepted if and only if the guards listed hold; then exactly the amount is staked on both sides and held; if both lists were full the lowest bottom delegation, and no other, ended with its stake released and the request on it gone; nothing else differs |
| DelegatorEffects.BondMoreEffect | pallets/allychain-staking/src/lib.rs:3129-3138 | stake on both sides, hold and `Total` grow by exactly the amount, if and only if there is a delegation and the balance suffices; nothing else differs |
| DelegatorEffects.ScheduleRevokeEffect | pallets/allychain-staking/src/lib.rs:3111-3126 | a request to revoke the whole stake after the delay, if and only if there is a delegation without one; nothing else differs |
| DelegatorEffects.ScheduleBondLessEffect | pallets/allychain-staking/src/lib.rs:3141-3157 | a request to decrease by the amount after the delay, if and only if both minima are kept after everything pending; nothing else differs |
| DelegatorEffects.CancelRequestEffect | pallets/allychain-staking/src/lib.rs:3172-3185 | that request is gone and no other |
| DelegatorEffects.CancelUndoesLeave | pallets/allychain-staking/src/lib.rs:3051-3108 | cancelling a scheduled exit restores the ledger |
| DelegatorEffects.CancelUndoesSchedule | pallets/allychain-staking/src/lib.rs:3111-3185 | cancelling a scheduled revocation or decrease restores the ledger, pending totals included |
| CandidateEffects.JoinEffect | pallets/allychain-staking/src/lib.rs:2696-2737 | an account joins if and only if the guards listed hold; it is then an active candidate with that bond, in the pool with it, without delegations, and the bond is held |
| CandidateEffects.ScheduleLeaveEffect | pallets/allychain-staking/src/lib.rs:2742-2765 | leaving the delay ahead and out of the pool, if and only if not leaving yet; nothing else differs |
| CandidateEffects.CancelLeaveEffect | pallets/allychain-staking/src/lib.rs:2839-2865 | active and in the pool with the counted total, if and only if leaving before; nothing else differs |
| CandidateEffects.GoOfflineEffect | pallets/allychain-staking/src/lib.rs:2868-2882 | idle and out of the pool, if and only if active before; nothing else differs |
| CandidateEffects.GoOnlineEffect | pallets/allychain-staking/src/lib.rs:2885-2905 | active and in the pool with the counted total, if and only if idle before; nothing else differs |
| CandidateEffects.BondMoreEffect | pallets/allychain-staking/src/lib.rs:2908-2921 | bond, counted total, pool entry, hold and `Total` grow by exactly the amount; nothing else differs |
| CandidateEffects.ScheduleBondLessEffect | pallets/allychain-staking/src/lib.rs:2924-2938 | the request with amount and due round is there, if and only if there was none and the minimum is kept; nothing else differs |
| CandidateEffects.ExecuteBondLessEffect | pallets/allychain-staking/src/lib.rs:2941-2950 | exactly the amount asked for leaves bond, counted total, pool entry, hold and `Total`; the request is gone |
| CandidateEffects.CancelBondLessEffect | pallets/allychain-staking/src/lib.rs:2953-2965 | the request is gone and nothing else differs |
| CandidateEffects.CancelUndoesBondLess | pallets/allychain-staking/src/lib.rs:2924-2965 | cancelling a scheduled bond decrease restores the ledger |
| CandidateEffects.OnlineUndoesOffline | pallets/allychain-staking/src/lib.rs:2868-2905 | going offline and online again restores the ledger, pool included |
| CandidateEffects.CancelUndoesScheduleIff | pallets/allychain-staking/src/lib.rs:2839-2865 | cancelling an exit restores the ledger if and only if the candidate was active: an idle one comes back active |
| ExitEffects.LeaveDelegatorsEffect | pallets/allychain-staking/src/lib.rs:3066-3092 | the delegator, its requests and all its stakes are gone on both sides and all it had staked is free again; nobody else's stake, hold, request or record differs, nor any candidate it did not back |
| ExitEffects.LeaveCandidatesEffect | pallets/allychain-staking/src/lib.rs:2769-2834 | every backer has its stake on the candidate and the candidate its bond free again, and the requests on these delegations are gone; a backer is a delegator still if and only if it has another delegation; nothing else differs |
| Delays.ExecutedWhenDue | pallets/allychain-staking/src/lib.rs:442-452 | whatever is carried out was pending and its round had come |
| Delays.PendingWasScheduled | pallets/allychain-staking/src/lib.rs:433-441 | whatever is pending goes back to one successful scheduling call and stayed pending since |
| Delays.DelayTheorem | pallets/allychain-staking/src/lib.rs:1552-1557 | every exit, bond decrease, revocation and delegation decrease happens at least its configured delay after the uncancelled call that scheduled it, for the amount then promised, and as a revocation if and only if that call scheduled one |
| Delays.RunRoundNeverFalls | pallets/allychain-staking/src/lib.rs:1852-1859 | the round index never falls in a run |
| Delays.RoundsAdvance | pallets/allychain-staking/src/lib.rs:1852-1859 | only a new round moves the round index, by one |
| Counterexamples.HoldsStayBehind | pallets/allychain-staking/src/lib.rs:1580-1590 | in a run from an empty chain (join, delegate, schedule a revocation, bond one unit more, wait) a revocation succeeds that leaves its delegator gone and one unit held; holds were exact before |
| Counterexamples.RevocationMisses | pallets/allychain-staking/src/lib.rs:763-780 | in a run from an empty chain, with a full top list, a due revocation is refused with `DelegationDNE` although its delegation is in that list, for one unit more than stored |
| Counterexamples.BottomTotalRunsAhead | pallets/allychain-staking/src/lib.rs:1140-1173 | in a run from an empty chain, with one delegator more than the top list holds, a decrease by one succeeds and leaves the bottom total one above the sum of its list |
| Counterexamples.TotalFallsBehind | pallets/allychain-staking/src/lib.rs:2769-2834 | in a continuation of that run the candidate exits while another stays, and `Total`, right until then, is one unit below all capital |
| Counterexamples.HotfixBreaksPool | pallets/allychain-staking/src/lib.rs:2531-2542 | after a candidate joined and went offline, all consistent, the hotfix with it listed puts it back into the pool, which is then wrong |
| Counterexamples.SplitForgetsRequest | pallets/allychain-staking/src/migrations.rs:190-214 | where a delegator may have two delegations: a state in which all records agree, and whose migration kicks a delegation with a request on it while its delegator stays; the request is orphaned and the result not consistent |
| Selection.SelectionTheorem | pallets/allychain-staking/src/lib.rs:3381-3396 | selected are exactly the pool members with enough stake and fewer than `TotalSelected` members preferred to them (ties to the larger account), in order, each once, as many as can be |
| Selection.TakeThenFilter | pallets/allychain-staking/src/lib.rs:3387-3393 | taking then filtering equals filtering then taking |
| Selection.NobodyPassedOver | pallets/allychain-staking/src/lib.rs:3381-3396 | nobody preferred to a selected candidate is left out |
| Selection.ComputeTopCandidates | pallets/allychain-staking/src/lib.rs:3381-3396 | the walk over the sorted pool computes that selection |
| Selection.IsSelectedCandidate | pallets/allychain-staking/src/lib.rs:3195-3197 | on the sorted selection the binary search is membership |
| Payments.RatioBounds | pallets/allychain-staking/src/lib.rs:3341-3357 | a ratio exceeds neither the exact one nor the whole |
| Payments.SharesWithinWhole | pallets/allychain-staking/src/lib.rs:3352-3365 | the shares of a collator and its delegators make at most the whole |
| Payments.PayoutBound | pallets/allychain-staking/src/lib.rs:3341-3366 | one author's credits exceed the larger of its share and its commission by at most half a unit per receiver |
| Payments.MintsAreShares | pallets/allychain-staking/src/lib.rs:3341-3366 | an author's part of the reward is its part of the points; after commission the collator gets the part of its bond and each delegator, in order, the part of its delegation, each within the two roundings |
| RoundEffects.BlockPays | pallets/allychain-staking/src/lib.rs:3284-3377 | a paying block takes award and snapshot of one author and credits, to whoever exists, the split of its reward by that snapshot: its part of the reward, less the commission, which is its part of the commission rate's part of the issuance; the collator gets the commission and its bond's part, each delegator its delegation's; without delegators the collator gets all; each part with both roundings spelled out; nothing else differs |
| RoundEffects.PaymentIsSplit | pallets/allychain-staking/src/lib.rs:3338-3366 | the credits for one author are that split |
| RoundEffects.PartUnique | pallets/allychain-staking/src/lib.rs:3341-3357 | the two roundings leave one amount only |
| RoundEffects.DepositsReach | pallets/allychain-staking/src/lib.rs:3328-3335 | whoever exists is credited exactly its credits, nobody else anything |
| Rounds.IssuanceIsSplit | pallets/allychain-staking/src/lib.rs:3254-3277 | the reserved part and the staking reward make up the issuance; the subtraction does not saturate |
| Rounds.DepositsCreate | pallets/allychain-staking/src/lib.rs:3328-3335 | credits create at most what they say, and exactly that when all receivers exist |
| Rounds.PaymentCreates | pallets/allychain-staking/src/lib.rs:3312-3366 | paying one author creates at most the larger of share and commission and half a unit per receiver |
| Rounds.SelectedAreCandidates | pallets/allychain-staking/src/lib.rs:3430-3437 | every selected account is a candidate with its records, and its counted total is its bond plus its top list |
| Rounds.SelectKeeps | pallets/allychain-staking/src/lib.rs:3399-3456 | after a selection, or its fallback, the accounts with a snapshot for the round are exactly the selected ones and every snapshot adds up |
| Rounds.CountsAreSnapshots | pallets/allychain-staking/src/lib.rs:3399-3456 | selected or copied, the collators and the stake reported are those of the snapshots taken for the round |
| RoundEffects.SelectionEffect | pallets/allychain-staking/src/lib.rs:3399-3456 | with somebody qualified each selected candidate is snapshotted with its bond, its top delegations and its counted total; with nobody, the previous round's snapshots and selection stay; no other round's snapshots differ |
| RoundEffects.SnapshotTheorem | pallets/allychain-staking/src/lib.rs:3399-3456 | in every later state a snapshot of a round holds what the ledger held for the account when the round was selected, and exactly those of authors not paid yet are there |
| RoundEffects.RewardTheorem | pallets/allychain-staking/src/lib.rs:3243-3278 | whatever happens between, the reward fixed for a round is the issuance for `Total` at the beginning of that round (least below the expected range, greatest above, ideal within), less the bond account's percentage, rounded to the nearest unit, which that account is credited |
| RoundEffects.PointsAreBlocks | pallets/allychain-staking/src/lib.rs:3462-3467 | until a round is paid an author's points are twenty for each of its blocks in it, up to the limit of a `u32` |
| RoundEffects.RoundsHaveLength | pallets/allychain-staking/src/lib.rs:1852-1859 | with one block after the other under constant settings a round begins every `length` blocks |
| RoundEffects.GenesisEffect | pallets/allychain-staking/src/lib.rs:2477-2484 | round 1 at block 0, with everything staked at genesis recorded and its selection snapshotted |
| Rounds.PointsGrow | pallets/allychain-staking/src/lib.rs:3462-3467 | a round's points stay the sum of its awards, saturated as `u32` |
| Rounds.StepKeeps | pallets/allychain-staking/src/lib.rs:2195-2225 | every block, author and extrinsic keeps snapshots, points, payouts and ledger in step |
| RoundRuns.LedgerIsRun | pallets/allychain-staking/src/lib.rs:2195-2225 | with blocks and rewards added, the ledger still sees only a run of calls, so every ledger theorem carries over |
| RoundRuns.ChainTheorem | pallets/allychain-staking/src/lib.rs:2408-2494 | from genesis on, the accounts with a snapshot for the current round are exactly `SelectedCandidates`, over any number of fallback rounds |
| RoundRuns.PaidOnce | pallets/allychain-staking/src/lib.rs:3338-3377 | every author of a past round is paid once or still waiting with its points, in whatever order awards are drained |
| RoundRuns.PayoutProgress | pallets/allychain-staking/src/lib.rs:3284-3306 | while the paying round lasts each of its blocks pays one author; with as many blocks as authors all are paid, and one more removes payout and points |
| RoundRuns.RoundBound | pallets/allychain-staking/src/lib.rs:3341-3344 | all authors of a round together are paid at most the round's reward and half a unit each, if the parts they are due make at most the whole |
| RoundRuns.RoundBoundIff | pallets/allychain-staking/src/lib.rs:3341-3344 | for the round next to be paid: that bound holds whatever governance sets and whatever happens, if and only if the parts its authors are due make at most the whole, rounding included |
| RoundRuns.WithinIff | pallets/allychain-staking/src/lib.rs:3341-3344 | any authors' shares are within every reward, but for half a unit each, if and only if their ratios make at most the whole |
| RoundRuns.UnsaturatedWithin | pallets/allychain-staking/src/lib.rs:3462-3467 | a round whose points did not saturate meets that condition |
| RoundRuns.AllPaid | pallets/allychain-staking/src/lib.rs:3284-3306 | as many blocks as authors pay each author, once, its share of the reward fixed by the first of them |
| RoundRuns.SaturationOverpays | pallets/allychain-staking/src/lib.rs:3462-3467 | in a run of blocks from any genesis, under constant settings: two authors fill the points of one long round to the limit of a `u32`, and the two blocks that pay that round pay its whole reward twice, whatever the reward |
| RoundStorages.RoundStorage.Genesis | pallets/allychain-staking/src/lib.rs:2477-2484 | round 1 starts at block 0 with its selection and `Staked` snapshot |
| RoundStorages.RoundStorage.PrepareStakingPayouts | pallets/allychain-staking/src/lib.rs:3243-3278 | the round due for payment, if it has points, gets its issuance, its reward after the part deposited for the bond account, and the commission; otherwise nothing changes |
| RoundStorages.RoundStorage.SelectTopCandidates | pallets/allychain-staking/src/lib.rs:3399-3456 | the selected are snapshotted, or, when nobody qualifies, the previous round's snapshots are copied; no `expect` can fail; collators, delegations and stake are counted over what was selected or copied |
| RoundStorages.RoundStorage.PayOneCollatorReward | pallets/allychain-staking/src/lib.rs:3312-3377 | whichever awarded author the drain yields is paid its share, with its award and snapshot taken; nobody exactly when there are no points or no awards |
| RoundStorages.RoundStorage.HandleDelayedPayouts | pallets/allychain-staking/src/lib.rs:3284-3306 | one payment, or the round's payout and points removed when none is left |
| RoundStorages.RoundStorage.OnInitialize | pallets/allychain-staking/src/lib.rs:2195-2225 | at the end of a round the payout is fixed, collators selected and `Staked` recorded, in that order; one author is paid in every block; the whole invariant is kept |
| RoundStorages.RoundStorage.NoteAuthor | pallets/allychain-staking/src/lib.rs:3462-3467 | twenty points for the author and the round; the whole invariant kept |
| RoundStorages.RoundStorage.CanAuthor | pallets/allychain-staking/src/lib.rs:3470-3474 | who may author is exactly who has a snapshot for the round |
| SplitMigration.SplitCandidateOk | pallets/allychain-staking/src/migrations.rs:222-281 | a migrated candidate meets the full candidate invariant |
| SplitMigration.KeepsLargestBottom | pallets/allychain-staking/src/migrations.rs:184-220 | the bottom entries kept are the largest `MaxBottom` |
| SplitMigration.SplitTheorem | pallets/allychain-staking/src/migrations.rs:181-282 | in any order of the stored records: all records agree, holds and `Total` are exact, and `Total` is lower by exactly what was kicked |
| SplitMigration.SplitEffect | pallets/allychain-staking/src/migrations.rs:181-282 | each candidate keeps bond, request, status, top list and the last entries of its bottom list, in reverse; whoever is kicked loses that delegation and no other, its stake free again; whoever stays keeps its status and requests |
| SplitMigration.StaysIff | pallets/allychain-staking/src/migrations.rs:190-214 | who is a delegator after the migration is read off the old lists: whoever has an entry in some top list or in the part of some bottom list that is kept |
| SplitMigration.ConsistentIff | pallets/allychain-staking/src/migrations.rs:190-214 | the result is consistent if and only if nobody has a request on a delegation about to be kicked and another entry that is kept, which can be checked on the stored records before |
| SplitMigration.SplitCandidateState | pallets/allychain-staking/src/migrations.rs:155-285 | the loops of the migration establish every candidate's invariant, and no lookup they expect to succeed fails |
| Repairs.PatchTheorem | pallets/allychain-staking/src/migrations.rs:89-104 | from arbitrary totals: totals and counted totals are sums, active candidates' pool entries follow, and nothing else differs; candidates are sound if and only if all but their totals was; the pool if and only if it had no stale member |
| Repairs.PatchIdempotent | pallets/allychain-staking/src/migrations.rs:89-104 | patching again, in any order, changes nothing |
| Repairs.PatchOfConsistent | pallets/allychain-staking/src/migrations.rs:89-104 | on a consistent ledger only drifted bottom totals change |
| Repairs.PatchIncorrectDelegationSums | pallets/allychain-staking/src/migrations.rs:43-109 | the loops of the migration compute that patch in any order of storage |
| Repairs.HotfixPoolIff | pallets/allychain-staking/src/lib.rs:2531-2542 | for any sorted pool: the repaired pool is right if and only if all candidates listed are active and every entry that is wrong, missing or stale is one of a candidate listed |
| Repairs.RefreshMeasures | pallets/allychain-staking/src/lib.rs:2531-2542 | each candidate listed has one entry with its counted total, everybody else's entries are as before |
| Repairs.RemoveOrphansOk | pallets/allychain-staking/src/lib.rs:2502-2525 | a record with requests that outlived their delegations is made sound, and a sound one left alone |
| Repairs.OnlyOrphansGo | pallets/allychain-staking/src/lib.rs:2502-2525 | the requests of those listed that are on no delegation go, and nothing else |
| Repairs.HotfixRequestsIff | pallets/allychain-staking/src/lib.rs:2502-2525 | the hotfix restores consistency if and only if every delegator with such a request is listed |
| Repairs.RemoveRequestsOfConsistent | pallets/allychain-staking/src/lib.rs:2502-2525 | on a consistent ledger the hotfix changes nothing, whoever is listed |
| Repairs.HotfixUpdateCandidatePoolValue | pallets/allychain-staking/src/lib.rs:2531-2542 | the loop re-enters exactly the listed candidates with their counted totals |
| Repairs.HotfixRemoveDelegationRequests | pallets/allychain-staking/src/lib.rs:2502-2525 | the loops remove exactly the orphaned requests of the listed delegators, in any order |

## Left out

- Events, weights and origins; weight hints are modelled where they guard a call. The Booleans and
  `DelegatorAdded` values that only feed events are not returned, among them the one of
  `rm_top_delegation`, whose comment says the opposite of its code.
- The per-round inflation formula (`inflation.rs`): the issuance of a round is an input, as are the
  settings governance can change (`TotalSelected`, round length, commission, bond account and percent).
- Governance setters and their checks, and the genesis loops over configured candidates and
  delegations: genesis starts from any consistent ledger.
- The round index does not saturate at the limit of a `u32`; reward points do.
- Deprecated types, `IncreaseMaxDelegationsPerCandidate`, `PurgeStaleStorage`, the commented-out exit
  queue migration and the try-runtime hooks.
- `hotfix_set_revoke`, which nothing calls.
- SCALE encoding: a stored record is a value that is decoded into an object and encoded again.
- Other pallets of the repository: `asset-manager`, `author-mapping`, `maintenance-mode` and
  `ethereum-chain-id` only keep short maps or mode switches. The node, client and runtime crates are
  not part of this model.
