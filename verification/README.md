# RentBond settlement, verified

RentBond holds a rental deposit in an escrow contract until a lease ends, and settles it by claims, decisions,
agreements or deadlines. This project models the repository's settlement core and proves what it promises:

- **The escrow** (`contracts/src/DepositEscrow.sol`). `EscrowSpec` says, as functions on a value of all its storage and
  its event log, what every external call does and when it reverts. The class in `DepositEscrow.dfy` updates the fields
  in place, loops and rollbacks included, and every method is proved against its function. Everything about runs is
  proved of the functions: the invariant (`EscrowInvariant`, `EscrowPreservation`), exact acceptance and effect of the
  calls (`EscrowGuarantees`, `EscrowDecisions`), where the money went (`EscrowAudit`, `ClaimProvenance`, `LandlordGains`),
  how a lease ends (`EscrowExit`), and what never changes in one history (`EscrowHistory`).
- **The token and solvency** (`contracts/src/MockUSD.sol`): the ledger, and both contracts together (`MockUsd.dfy`,
  `Solvency`).
- **The planner** (`worker-actions.ts`): which public call is due when, proved against the contract (`WorkerActions`,
  `PlannerSoundness`).
- **The durable job table and its workers** (`worker-tasks.ts`, `executor.ts`): every store method is one atomic step on
  the rows; the class and the executor's cycle change them in place, and safety is proved over every interleaving
  (`WorkerTasks`, `TaskSafety`, `TaskStore.dfy`, `TaskHistory`, `Executor.dfy`, `ExecutorCycle`).
- **The chain projection** (`projections.ts`, `loop.ts`): the event table and cursors following a chain that forks
  (`Projection`, `ProjectionAgreement`, `IndexerRuns`, `Indexer.dfy`).
- **Two codecs**: canonical JSON (`CanonicalJson`, `JsonParser`, `JsonInjective`) and decimal amounts (`Money`).

The functions of `EscrowSpec`, `TokenLedger`, `WorkerTasks`, `Projection` and the codecs are the specification; the
table names the methods proved against them and the lemmas that say what they promise.

## Where the code does less than one might expect

Each of these is proved: the lemma gives the exact condition, and where one is named an input on which the stronger
statement fails.

- A chain event whose key is already in the table keeps the row's old name and address. After a fork that shifts log
  indices the table can show the wrong event (`ProjectionAgreement.ShiftedIndexMisnamed`,
  `ProjectionAgreement.SyncAgreesExactly`). A later replay that meets no clash repairs it (`IndexerRuns.LeaseRecovers`).
- A reorganization sends settled jobs back to reconciliation, so a job awaiting reconciliation and a signed one can
  coexist (`TaskSafety.ReopenedBesideSigned`, `TaskSafety.ReorganizedExactly`). Single flight of prepared, broadcast and
  running jobs is not affected.
- An array of one hole encodes as an empty array (`JsonInjective.LoneHoleCollides`).
- Most negative amounts do not survive formatting (`Money.NegativeRoundTrip`).
- In review the landlord cannot waive a claim if there is any case record, even of a finished checkout case
  (`EscrowDecisions.WaiveClaimAccepted`).
- When a checkout case is finished late, the claim schedule starts late (`PlannerSoundness.CheckoutLateness`); carrying
  out any other planned action late changes nothing (`PlannerSoundness.LatenessIrrelevant`).

## Model

| member | source | states |
|---|---|---|
| DepositEscrowContract.DepositEscrow.Deploy | contracts/src/DepositEscrow.sol:307-346 | Deployment yields a contract exactly for terms that pass every check, in the order the checks are made; the new contract holds the terms and nothing else. |
| DepositEscrowContract.DepositEscrow.AcceptTerms | contracts/src/DepositEscrow.sol:355-364 | Reports the specified error and changes nothing, or leaves exactly the specified storage and log; so for every method of the class. The tenant accepts the exact terms before the deadline. |
| DepositEscrowContract.DepositEscrow.CancelUnfunded | contracts/src/DepositEscrow.sol:366-371 | A party cancels before funding, and the lease is cancelled for good. |
| DepositEscrowContract.DepositEscrow.ExpireUnfunded | contracts/src/DepositEscrow.sol:373-381 | Anyone expires an unfunded lease from the acceptance deadline on. |
| DepositEscrowContract.DepositEscrow.Fund | contracts/src/DepositEscrow.sol:383-432 | Guards in order, then the registry's answer, then the token's; only if all pass is exactly the deposit booked as unallocated. |
| DepositEscrowContract.DepositEscrow.RequestCheckout | contracts/src/DepositEscrow.sol:475-509 | A new request needs an active lease and, after a resolved one, new evidence and the retry delay; its deadline is capped at the lease end. |
| DepositEscrowContract.DepositEscrow.RespondCheckout | contracts/src/DepositEscrow.sol:511-530 | The other party answers once; an agreement starts the claims. |
| DepositEscrowContract.DepositEscrow.OpenCheckoutCase | contracts/src/DepositEscrow.sol:532-575 | A refused or unanswered request becomes a case whose deadlines are capped at the lease end. |
| DepositEscrowContract.DepositEscrow.StartScheduledSettlement | contracts/src/DepositEscrow.sol:577-588 | From the lease end on the claims start, closing any checkout; a second call does nothing. |
| DepositEscrowContract.DepositEscrow.PushClaims | contracts/src/DepositEscrow.sol:598-618 | The loop that checks and pushes inputs stops at the first bad one with its error, and otherwise pushes all, numbered from one, with their sum. |
| DepositEscrowContract.DepositEscrow.SubmitClaims | contracts/src/DepositEscrow.sol:590-624 | Claims are submitted once, all or none: a failed check undoes the pushes. |
| DepositEscrowContract.DepositEscrow.RespondClaim | contracts/src/DepositEscrow.sol:626-659 | The tenant's answer marks the claim or, once closed, pays an accepted claim at once. |
| DepositEscrowContract.DepositEscrow.WaiveClaim | contracts/src/DepositEscrow.sol:661-683 | The landlord's waiver, with its refusal after closing when any case record exists. |
| DepositEscrowContract.DepositEscrow.CloseClaims | contracts/src/DepositEscrow.sol:685-693 | Closing is open from the claim deadline on and does nothing when done already. |
| DepositEscrowContract.DepositEscrow.ContestPending | contracts/src/DepositEscrow.sol:707-715 | The loop of openClaimCase leaves every pending claim disputed and returns the disputed sum. |
| DepositEscrowContract.DepositEscrow.OpenClaimCase | contracts/src/DepositEscrow.sol:695-740 | Opens the claims case on exactly the disputed sum, with the schedule's deadlines. |
| DepositEscrowContract.DepositEscrow.ProposeDecision | contracts/src/DepositEscrow.sol:742-762 | A valid vector is stored and its challenge window opened. |
| DepositEscrowContract.DepositEscrow.ProposeCheckoutDecision | contracts/src/DepositEscrow.sol:764-778 | A checkout decision is recorded with its own digest. |
| DepositEscrowContract.DepositEscrow.Challenge | contracts/src/DepositEscrow.sol:780-801 | A challenge deletes the decision and sets the fallback window from the present. |
| DepositEscrowContract.DepositEscrow.EscalateTimeout | contracts/src/DepositEscrow.sol:803-818 | A missed primary deadline escalates, with the fallback window set from that deadline, not from the call. |
| DepositEscrowContract.DepositEscrow.FinalizePrimary | contracts/src/DepositEscrow.sol:820-830 | An unchallenged decision is carried out; on a finalized case the call does nothing. |
| DepositEscrowContract.DepositEscrow.ResolveFallback | contracts/src/DepositEscrow.sol:832-857 | The fallback vector is validated, stored and applied in one call. |
| DepositEscrowContract.DepositEscrow.ResolveFallbackCheckout | contracts/src/DepositEscrow.sol:859-877 | The fallback decision of a checkout case. |
| DepositEscrowContract.DepositEscrow.MarkServiceTimeout | contracts/src/DepositEscrow.sol:879-899 | A silent fallback resolver ends a checkout case or starts the exit notice of a claims case. |
| DepositEscrowContract.DepositEscrow.FinalizeTimeout | contracts/src/DepositEscrow.sol:901-916 | After the exit notice everything unallocated goes to the tenant. |
| DepositEscrowContract.DepositEscrow.ExpireEscrow | contracts/src/DepositEscrow.sol:918-945 | The hard end: open if needed, close, apply an unchallenged award, return the rest. |
| DepositEscrowContract.DepositEscrow.ProposeSettlement | contracts/src/DepositEscrow.sol:947-1004 | A proposal of the whole unallocated sum at the present revision. |
| DepositEscrowContract.DepositEscrow.ConfirmSettlement | contracts/src/DepositEscrow.sol:1006-1036 | The counterparty confirms a fresh proposal and both shares are credited. |
| DepositEscrowContract.DepositEscrow.Withdraw | contracts/src/DepositEscrow.sol:1038-1040 | The caller's own credit is paid; none is an error. |
| DepositEscrowContract.DepositEscrow.WithdrawFor | contracts/src/DepositEscrow.sol:1042-1047 | Anyone triggers a party's payment; none is not an error. |
| DepositEscrowContract.DepositEscrow.WithdrawTo | contracts/src/DepositEscrow.sol:1305-1334 | The credit is cleared before the token moves, and a failed transfer restores it. |
| DepositEscrowContract.DepositEscrow.AllocateCredit | contracts/src/DepositEscrow.sol:1338-1356 | One beneficiary, at most the unallocated sum, logged, the pending proposal dropped. |
| DepositEscrowContract.DepositEscrow.CloseClaimsInternal | contracts/src/DepositEscrow.sol:1227-1255 | The closing loop, round by round, is the specified fold over the claims. |
| DepositEscrowContract.DepositEscrow.ValidateDecisionVector | contracts/src/DepositEscrow.sol:1257-1278 | Counting the disputed claims and then comparing one by one accepts exactly the vectors in lockstep with them. |
| DepositEscrowContract.DepositEscrow.ApplyDecision | contracts/src/DepositEscrow.sol:1280-1303 | The applying loop is the specified fold over the stored vector, with its sum checked at the end. |
| DepositEscrowContract.DepositEscrow.RefreshAllocationPhase | contracts/src/DepositEscrow.sol:1381-1396 | After closing the lease is allocated when nothing is unallocated or no claim is open. |
| DepositEscrowContract.DepositEscrow.StartClaims | contracts/src/DepositEscrow.sol:1191-1212 | The schedule follows from the start alone. |
| DepositEscrowContract.DepositEscrow.FinishCheckoutCase | contracts/src/DepositEscrow.sol:1158-1175 | Finishing a checkout case leads to the claims or back to the lease. |
| EscrowInvariant.DeployEstablishes | contracts/src/DepositEscrow.sol:307-346 | Deployment establishes the invariant: phase against case, accounting against claims, vector against disputed claims, schedule order, proposal freshness. |
| EscrowPreservation.ExecKeeps | contracts/src/DepositEscrow.sol:355-1047 | Every one of the 27 external calls, by anyone at any time, keeps that invariant. |
| EscrowPreservation.RunKeeps | contracts/src/DepositEscrow.sol:355-1047 | So does every run of calls, reverted ones included. |
| EscrowPreservation.ReachableInv | contracts/src/DepositEscrow.sol:286-305 | Every state a deployed lease can reach satisfies the invariant. |
| EscrowGuarantees.LedgerAgreement | contracts/src/DepositEscrow.sol:590-693 | In every reachable state: the claim total is the sum of the claims; before closing and the end unallocated equals funded; while claims are decided unallocated is the sum of the disputed ones and positive; nothing is unallocated exactly when Allocated or Closed; Allocated has credit; Closed has paid everything out. |
| EscrowPreservation.UnallocatedExactly | contracts/src/DepositEscrow.sol:1329-1331 | Of a funded lease, unallocated is zero if and only if it is Allocated or Closed. |
| EscrowPreservation.CloseForm | contracts/src/DepositEscrow.sol:1227-1255 | Closing cannot revert; it pays the unclaimed and waived amounts to the tenant, the accepted ones to the landlord, and disputes the rest. |
| EscrowPreservation.ApplyForm | contracts/src/DepositEscrow.sol:1280-1303 | A vector in lockstep applies without revert, allocates exactly what was unallocated, and gives the landlord the sum of its entries. |
| EscrowLoops.SettleFromForm | contracts/src/DepositEscrow.sol:1238-1251 | The closing loop, from any index, equals the closed form of its effect. |
| EscrowLoops.ApplyFromForm | contracts/src/DepositEscrow.sol:1282-1302 | The applying loop, from any entry, equals the closed form of its effect. |
| EscrowGuarantees.PendingDecisionApplies | contracts/src/DepositEscrow.sol:1257-1303 | A stored decision stays valid until it is applied or deleted: both reverts in applying it are unreachable and the full remainder is allocated. |
| EscrowGuarantees.EntryAwarded | contracts/src/DepositEscrow.sol:1282-1299 | Entry by entry, the claim an entry names gets that entry's amount. |
| ClaimProvenance.AwardsNamed | contracts/src/DepositEscrow.sol:1282-1299 | Conversely, what a disputed claim gives the landlord is what an entry with its number names. |
| EscrowGuarantees.StartScheduledSettlementAccepted | contracts/src/DepositEscrow.sol:577-588 | Accepted if and only if already started, or the lease runs and the time is between lease end and hard end: no helper reverts. |
| EscrowGuarantees.CloseClaimsAccepted | contracts/src/DepositEscrow.sol:685-693 | Accepted if and only if closed already, or claims are open, the claim deadline has come and the hard end has not. |
| EscrowGuarantees.OpenClaimCaseAccepted | contracts/src/DepositEscrow.sol:695-740 | Accepted if and only if in review between the response deadline and the hard end: its three balance and case reverts are unreachable there. |
| EscrowGuarantees.OpenCheckoutCaseAccepted | contracts/src/DepositEscrow.sol:532-575 | Accepted if and only if a request is pending, answered or overdue, before the lease end. |
| EscrowGuarantees.EscalateTimeoutAccepted | contracts/src/DepositEscrow.sol:803-818 | Accepted if and only if the named case is in its primary phase past its deadline. |
| EscrowGuarantees.FinalizePrimaryAccepted | contracts/src/DepositEscrow.sol:820-830 | Accepted if and only if the named case is finalized, or proposed with its window over: applying never reverts. |
| EscrowGuarantees.MarkServiceTimeoutAccepted | contracts/src/DepositEscrow.sol:879-899 | Accepted if and only if the named case is finalized, or in fallback past its deadline: the revert at line 894 is unreachable. |
| EscrowGuarantees.FinalizeTimeoutAccepted | contracts/src/DepositEscrow.sol:901-916 | Accepted if and only if the named case is finalized, or its exit notice has run out. |
| EscrowGuarantees.ExpireEscrowAccepted | contracts/src/DepositEscrow.sol:918-945 | Accepted if and only if funded and past the hard end: no helper reverts. |
| EscrowGuarantees.ConfirmSettlementAccepted | contracts/src/DepositEscrow.sol:1006-1036 | Refused only for the number, the caller or the time; StaleProposal is unreachable. |
| EscrowDecisions.SubmitClaimsAccepted | contracts/src/DepositEscrow.sol:590-624 | Accepted if and only if the landlord submits one to ten good inputs within the deposit, once, in time; the claims are those inputs, numbered and pending. |
| EscrowDecisions.RespondClaimAccepted | contracts/src/DepositEscrow.sol:626-659 | Accepted if and only if the tenant answers an open claim in time with a commitment; paying never reverts. |
| EscrowDecisions.RespondClaimPays | contracts/src/DepositEscrow.sol:626-659 | An accepted claim is paid to the landlord exactly when the claims are closed; otherwise only its mark changes, and no other claim does. |
| EscrowDecisions.WaiveClaimAccepted | contracts/src/DepositEscrow.sol:661-683 | Accepted exactly for an unallocated, unwaived claim (an accepted one too) and, in review, only without any case record; it credits the tenant exactly when closed. |
| EscrowDecisions.ProposeDecisionAccepted | contracts/src/DepositEscrow.sol:742-762 | Accepted exactly for a vector in lockstep within the window; it opens a full challenge window and moves no money. |
| EscrowDecisions.ChallengeAccepted | contracts/src/DepositEscrow.sol:780-801 | Accepted exactly from a party within the window; the decision is gone. |
| EscrowDecisions.ResolveFallbackAccepted | contracts/src/DepositEscrow.sol:832-857 | Accepted exactly for a vector in lockstep within the window; it ends the lease, dividing precisely what was in dispute. |
| EscrowDecisions.ProposeSettlementAccepted | contracts/src/DepositEscrow.sol:947-1004 | Accepted exactly for shares of the whole unallocated sum in whole units at the present revision, while a settlement is still possible. |
| EscrowDecisions.ConfirmSettlementPays | contracts/src/DepositEscrow.sol:1006-1036 | Both shares are credited and nothing is left unallocated. |
| EscrowDecisions.RespondCheckoutAccepted | contracts/src/DepositEscrow.sol:511-530 | Accepted exactly from the other party in time; an agreement starts the schedule at the present, without revert. |
| EscrowDecisions.WithdrawExactly | contracts/src/DepositEscrow.sol:1305-1334 | The whole credit of the beneficiary is paid, and the last credit closes the lease. |
| EscrowGuarantees.DeadlinesContained | contracts/src/RentBondRules.sol:37-45 | Every claims-case deadline leaves, under the hard end, the time all later steps may take; the hard end itself fits 256 bits. |
| EscrowGuarantees.CapsNeverBind | contracts/src/DepositEscrow.sol:788-811 | In a claims case the cap at the hard end never shortens a fallback window. |
| EscrowGuarantees.ChallengeWindowUncapped | contracts/src/DepositEscrow.sol:1132-1136 | Nor a challenge window. |
| EscrowGuarantees.RecordingNeverReverts | contracts/src/DepositEscrow.sol:1121-1142 | Once a proposal's own checks pass, the revert at line 1137 is unreachable. |
| EscrowGuarantees.SupersededRefused | contracts/src/DepositEscrow.sol:1006-1010 | A proposal number that is no longer pending is refused. |
| EscrowAudit.RunAudited | contracts/src/DepositEscrow.sol:1338-1356 | Along every run: folding Funded, CreditAllocated and Withdrawn over the log gives all six amounts; the landlord's total is what his claims and the one confirmed settlement gave him; at most one settlement is ever confirmed; all amounts are whole business units. |
| EscrowAudit.ReachableAudited | contracts/src/DepositEscrow.sol:1305-1356 | The same in every reachable state. |
| EscrowAudit.AllocatedIsFinal | contracts/src/DepositEscrow.sol:918-1036 | Once Allocated or Closed, no call but a withdrawal changes anything. |
| EscrowAudit.RunTotalsNeverDrop | contracts/src/DepositEscrow.sol:1305-1356 | Along every run neither party's credit plus withdrawals ever falls. |
| ClaimProvenance.ExecAccounts | contracts/src/DepositEscrow.sol:626-1036 | What one successful call makes of each claim: the landlord's part changes once, from zero, and only if the call is the acceptance of the claim after closing, or closes the claims with this one accepted, or carries out a vector naming exactly that amount: the fallback resolver's own, or a stored proposal whose challenge window is over. Everything else leaves it, proposing and withdrawing included. |
| ClaimProvenance.WhoDecides | contracts/src/DepositEscrow.sol:626-857 | A call that accepts is the tenant's, a proposal the primary resolver's, a fallback decision the fallback resolver's, and that one ends the lease. |
| ClaimProvenance.ExecutedReplays | contracts/src/DepositEscrow.sol:355-1047 | The successful calls of a run alone make the same run, and each was made in the state the ones before it left. |
| ClaimProvenance.RunExplained | contracts/src/DepositEscrow.sol:626-1036 | Along every run the successful calls explain every acceptance, every amount given to the landlord, and the vector still stored, which has stood since its proposal. |
| ClaimProvenance.ClaimsExplained | contracts/src/DepositEscrow.sol:1280-1303 | From deployment: a claim that gave the landlord anything gave at most its amount, at one successful call: the tenant's acceptance after closing, the closing of a claim the tenant had successfully accepted, a fallback decision, or the carrying out of a primary proposal that named exactly that amount and was not deleted in between. |
| LandlordGains.ExecGains | contracts/src/DepositEscrow.sol:626-1036 | Every successful call adds to the landlord's credit plus withdrawals exactly what its state before tells: the claim accepted after closing, the accepted claims when it closes, the awards of the vector it carries out, his share of a confirmed settlement; all other calls add nothing. |
| LandlordGains.RunGains | contracts/src/DepositEscrow.sol:626-1036 | Along every run his total grows by exactly the sum of those amounts over the successful calls. |
| LandlordGains.GainsFromDeployment | contracts/src/DepositEscrow.sol:307-1047 | From deployment his total is that sum. |
| LandlordGains.UndecidedRun | contracts/src/DepositEscrow.sol:626-1036 | From a state without accepted claims his total does not change along a run in which no acceptance succeeds, no vector awarding him something is carried out and no settlement with a share for him is confirmed. |
| EscrowExit.PublicKeepsDue | contracts/src/DepositEscrow.sol:532-945 | No call that anyone may make changes what the landlord has coming: his total, the accepted claims not yet closed, and the award of a live proposed decision. |
| EscrowExit.Confluence | contracts/src/DepositEscrow.sol:532-945 | Any two sequences of such calls that leave nothing unallocated end in the same split, whatever their order and times. |
| EscrowExit.GuaranteedExit | contracts/src/DepositEscrow.sol:918-945 | From the hard end on expireEscrow cannot revert, leaves nothing unallocated, and honours recorded acceptances and an unchallenged award. |
| EscrowExit.WaitingIsAsGood | contracts/src/DepositEscrow.sol:918-945 | Waiting for it gives the same split as any prompt complete sequence. |
| EscrowExit.DueNeverRises | contracts/src/DepositEscrow.sol:626-1036 | What the landlord has coming rises only by a tenant's acceptance, a resolver's decision or a confirmed settlement. |
| EscrowExit.SilenceFavoursTheTenant | contracts/src/DepositEscrow.sol:626-1036 | Along any run in which none of those calls succeeds he is never due more than at its start. |
| EscrowExit.SilenceFromDeployment | contracts/src/DepositEscrow.sol:901-945 | Along any run from deployment he gets nothing unless an acceptance succeeds, a vector awarding him something is carried out, or a settlement with a share for him is confirmed; refused calls and proposals deleted by a challenge do not matter. |
| EscrowHistory.ExecEvolves | contracts/src/DepositEscrow.sol:355-1047 | One history: the schedule, closing and each case deadline are written once, cases only advance, proposal numbers only grow, the end stays the end. |
| EscrowHistory.RunEvolves | contracts/src/DepositEscrow.sol:355-1047 | The same across any run. |
| EscrowHistory.SupersededForever | contracts/src/DepositEscrow.sol:1006-1010 | A superseded proposal number is refused after every further run. |
| WorkerActions.PlannedActions | apps/web/src/server/worker-actions.ts:22-44 | The planner's list holds exactly the actions that are planned: offered in the snapshot and with their deadline set. |
| WorkerActions.PlannedExactly | apps/web/src/server/worker-actions.ts:22-44 | Membership in the list, both ways, and no kind twice. |
| WorkerActions.ActionMatches | apps/web/src/server/worker-actions.ts:46-49 | A stored job matches exactly when its action is planned. |
| PlannerSoundness.PlannedSucceeds | apps/web/src/server/worker-actions.ts:22-44 | A due planned action is accepted by the contract if and only if it is not of a kind stopped at the hard end, or the hard end has not come; accepted, it strictly lowers a rank over phase and case phase. |
| PlannerSoundness.AlwaysPlanned | apps/web/src/server/worker-actions.ts:32-41 | While anything is unallocated, something is planned. |
| PlannerSoundness.NothingPlannedAtTheEnd | apps/web/src/server/worker-actions.ts:24-24 | At the end nothing is. |
| PlannerSoundness.IdleExactly | apps/web/src/server/worker-actions.ts:22-44 | From the hard end on, no planned action is due exactly when nothing is unallocated. |
| PlannerSoundness.WorkerRunEnds | apps/web/src/server/worker-actions.ts:22-44 | Performing due actions as time advances ends, after at most as many steps as the rank, with everything allocated once the hard end has come. |
| PlannerSoundness.DueOnce | apps/web/src/server/worker-actions.ts:16-30 | On one chain history a kind and case are planned with one deadline only. |
| PlannerSoundness.DoneOnce | apps/web/src/server/worker-actions.ts:22-49 | After an action has succeeded it is never planned again. |
| PlannerSoundness.LatenessIrrelevant | contracts/src/DepositEscrow.sol:577-945 | Performing a planned action late leaves the same state and log as performing it in time, unless it finishes a checkout case. |
| PlannerSoundness.CheckoutLateness | contracts/src/DepositEscrow.sol:1158-1175 | Finishing a checkout case at two times gives the same state exactly when they count as the same start: equal up to the lease end when approved, on the same side of it otherwise. |
| MockUsdContract.MockUsd.Mint | contracts/src/MockUSD.sol:31-37 | The operator mints; an overflow undoes the supply. |
| MockUsdContract.MockUsd.Approve | contracts/src/MockUSD.sol:39-44 | Sets one allowance. |
| MockUsdContract.MockUsd.Move | contracts/src/MockUSD.sol:61-71 | Debit, then credit; a failed credit undoes the debit. |
| MockUsdContract.MockUsd.Transfer | contracts/src/MockUSD.sol:46-49 | Moves the caller's own balance. |
| MockUsdContract.MockUsd.TransferFrom | contracts/src/MockUSD.sol:51-59 | Uses up the allowance unless it is the unlimited one; a refused transfer restores it. |
| TokenLedger.TransferExactly | contracts/src/MockUSD.sol:61-71 | Accepted exactly with a recipient and enough balance (the addition cannot overflow); moves the amount and touches nothing else. |
| TokenLedger.TransferFromExactly | contracts/src/MockUSD.sol:51-59 | Accepted exactly with balance and allowance; an unlimited allowance stays. |
| TokenLedger.TokenKeepsSound | contracts/src/MockUSD.sol:31-71 | Every call keeps the supply equal to the sum of all balances. |
| TokenLedger.OwnFunds | contracts/src/MockUSD.sol:46-59 | Nobody lowers a balance but its owner or a spender the owner allowed. |
| Solvency.WorldRunSolvent | contracts/src/DepositEscrow.sol:383-432 | On every run of both contracts, stray transfers included: the escrow's balance covers unallocated funds and credits, supply is the sum of balances, nobody may spend the escrow's tokens, and its surplus never falls. |
| Solvency.WithdrawalPays | contracts/src/DepositEscrow.sol:1305-1334 | In every such world a withdrawal of an existing credit succeeds and pays it in full. |
| Solvency.FundingExactly | contracts/src/DepositEscrow.sol:383-432 | Funding succeeds exactly when the lease accepts it and the tenant has and has allowed the deposit. |
| Solvency.PullExactly | contracts/src/DepositEscrow.sol:419-425 | The balance-delta check passes exactly when the transfer does and comes from somebody else. |
| TaskStoreClass.TaskStore.Enqueue | apps/web/src/server/worker-tasks.ts:79-158 | Answers and changes the rows as specified, keeps the table in order and all signed bytes; so for every method. Keeps the live row of an action, else inserts or revives one. |
| TaskStoreClass.TaskStore.Claim | apps/web/src/server/worker-tasks.ts:159-201 | Signed work first, one signer at a time, nothing while a row awaits reconciliation; what it hands out is the only thing in flight. |
| TaskStoreClass.TaskStore.Prepare | apps/web/src/server/worker-tasks.ts:202-235 | The lock holder stores bytes that do exactly what is scheduled. |
| TaskStoreClass.TaskStore.MarkBroadcast | apps/web/src/server/worker-tasks.ts:236-245 | The lock holder records a broadcast and lets go. |
| TaskStoreClass.TaskStore.Complete | apps/web/src/server/worker-tasks.ts:246-263 | A fitting receipt settles the row. |
| TaskStoreClass.TaskStore.Settle | apps/web/src/server/worker-tasks.ts:264-290 | A fitting receipt settles a row awaiting reconciliation; nothing else does. |
| TaskStoreClass.TaskStore.Retry | apps/web/src/server/worker-tasks.ts:291-314 | Signed work goes to reconciliation, unsigned work back to the queue until its attempts are used up. |
| TaskStoreClass.TaskStore.Cancel | apps/web/src/server/worker-tasks.ts:315-320 | An unsigned running row is cancelled. |
| TaskStoreClass.TaskStore.Invalidate | apps/web/src/server/worker-tasks.ts:28-38 | A rollback cancels unsigned rows of the lease and sends signed ones to reconciliation. |
| TaskSafety.StepKeeps | apps/web/src/server/worker-tasks.ts:79-320 | Every store call at any moment keeps: single flight, deduplication, states and bytes in agreement, bytes faithful to the schedule; and keeps every stored byte. |
| TaskSafety.StoreRunKeeps | apps/web/src/server/worker-tasks.ts:28-320 | So does every interleaving of calls on a clock that does not go back, with locks expiring. |
| TaskSafety.AtMostOneInFlight | apps/web/src/server/worker-tasks.ts:168-200 | Prepared and broadcast rows, and running ones with an unexpired lock, number at most one after any interleaving. |
| TaskSafety.UpsertYields | apps/web/src/server/worker-tasks.ts:135-156 | When no live row exists for the action, the upsert always yields a queued, unsigned row: its conflict branch is unreachable. |
| TaskSafety.ConflictExactly | apps/web/src/server/worker-tasks.ts:115-127 | A current request conflicts if and only if the action has a live row with another deadline. |
| TaskSafety.ClaimExclusive | apps/web/src/server/worker-tasks.ts:168-200 | After a claim that hands out a row nothing else is in flight, reconciliation counted. |
| TaskSafety.ClaimTakesEarliest | apps/web/src/server/worker-tasks.ts:181-199 | Unsigned work is taken in order of its deadline among the rows due, free and not used up; the attempt is counted and the row locked. |
| TaskSafety.ExclusiveRun | apps/web/src/server/worker-tasks.ts:159-320 | Along every interleaving that wider exclusion holds throughout if and only if every reorganization in it meets the exact condition below. |
| TaskSafety.ReorganizedExactly | apps/web/src/server/worker-tasks.ts:28-38 | A reorganization keeps it exactly when at most one row is signed for its lease or in flight elsewhere. |
| TaskSafety.ReopenedBesideSigned | apps/web/src/server/worker-tasks.ts:28-38 | A reachable table where it fails: a confirmed transaction is reopened beside another lease's signed work. |
| TaskHistory.PlannerNeverConflicts | apps/worker/src/indexer/loop.ts:57-62 | Along one chain history, whatever workers do in between, a planner candidate never meets the differing-deadline conflict: a deadline past the schema's limit is rejected as invalid input, and every other candidate is granted. |
| ExecutorProtocol.PlayOk | apps/worker/src/jobs/executor.ts:7-51 | Under any interleaving of any number of workers, crashes, lock expiry and reorganizations: every sending is of bytes stored for its row before, and sendings and bytes never change. |
| ExecutorProtocol.OneTransactionPerTask | apps/worker/src/jobs/executor.ts:34-44 | At most one byte string is ever sent for a row. |
| ExecutorProtocol.SentIsScheduled | apps/worker/src/jobs/executor.ts:24-44 | What is sent makes the scheduled call, with no value, on the lease's escrow, and was planned and due in a confirmed snapshot. |
| ExecutorProtocol.SentSucceeds | apps/worker/src/jobs/executor.ts:24-44 | If the escrow is still in that state when the bytes execute, it accepts them exactly as the planner promised. |
| ExecutorProtocol.ClearedAlone | apps/worker/src/jobs/executor.ts:40-43 | When a worker is cleared to send, its row is signed and the only one live. |
| ExecutorCycle.RunExecutorCycle | apps/worker/src/jobs/executor.ts:13-50 | One cycle with arbitrary interference in every gap keeps the table in order, and what it sends are the bytes the table holds, due in the confirmed view. |
| IndexerClass.Indexer.RecordEvents | apps/web/src/server/projections.ts:161-183 | Each event is inserted, or updates the row with its key, in order. |
| IndexerClass.Indexer.SyncLease | apps/web/src/server/projections.ts:185-274 | The synchronization, with its range loop, does as specified; an error rolls everything back. |
| IndexerClass.Indexer.SyncFactory | apps/worker/src/indexer/loop.ts:8-47 | The factory synchronization, with its chain-wide invalidation, does as specified. |
| IndexerClass.Indexer.InvalidateAll | apps/worker/src/indexer/loop.ts:16-26 | The invalidation, lease by lease, is the specified chain-wide one. |
| ProjectionAgreement.SyncAgreesExactly | apps/web/src/server/projections.ts:161-274 | When syncLease returns, from any table at all, the rows shown are exactly the contract's logs up to the checkpoint, each once, if and only if no fetched log has a key the table holds under another name or address, the blocks before the fetched ones were complete, and nothing else was shown that is not fetched again; the snapshot is at the checkpoint. |
| ProjectionAgreement.ReplayAgreesExactly | apps/web/src/server/projections.ts:185-274 | After a reorganization the replay agrees, however wrong the table was, if and only if no fetched log clashes with a row. |
| ProjectionAgreement.SyncFromAgreement | apps/web/src/server/projections.ts:161-274 | From a table in agreement that is the only condition left. |
| ProjectionAgreement.SyncProgress | apps/web/src/server/projections.ts:210-272 | A synchronization advances a current checkpoint by a whole range or to the head, restarts a stale one at the creation block, ends current, and invalidates the lease's jobs exactly when the checkpoint was stale. |
| ProjectionAgreement.ShiftedIndexMisnamed | apps/web/src/server/projections.ts:161-183 | A fork that shifts log indices breaks agreement: the update on a key keeps the old event's name. |
| ProjectionAgreement.NothingBeforeCreation | apps/web/src/server/projections.ts:199-212 | If the contract emitted nothing before the recorded creation block, the rows are all its logs. |
| IndexerRuns.RunOk | apps/web/src/server/projections.ts:95-274 | Extensions, forks, attachments and synchronizations in any order, without such a clash, keep every lease's rows in agreement with the chain its checkpoint stands for. |
| IndexerRuns.RunThenSync | apps/web/src/server/projections.ts:185-274 | After any run of these steps at all, clashes included, a further syncLease agrees exactly on the three conditions, and a replay after a reorganization exactly when what it fetched does not clash. |
| IndexerRuns.CleanRunThenSync | apps/web/src/server/projections.ts:185-274 | After a run without a clash, exactly when what it fetched does not clash. |
| IndexerRuns.SparedLeaseOk | apps/web/src/server/projections.ts:95-274 | One lease in agreement stays so along any run whose own synchronizations do not clash and whose other recordings miss its rows, whatever clashes elsewhere. |
| IndexerRuns.LeaseRecovers | apps/web/src/server/projections.ts:185-274 | Recovery: after any run whatever, a replay without a clash puts a lease in agreement, and it stays so along any such run. |
| IndexerRuns.InvalidationComplete | apps/worker/src/indexer/loop.ts:16-26 | A factory reorganization shows nothing of any lease, forgets every cursor and snapshot, and leaves no job of an attached lease live, without touching signed bytes. |
| JsonInjective.EncodesExactly | packages/shared/src/commitments/index.ts:20-49 | Two supported values have the same text if and only if they are the same up to key order, negative zero counting as zero and an array of one hole as empty. |
| JsonInjective.EncodeWrites | packages/shared/src/commitments/index.ts:20-49 | Encoding throws exactly on values with an unsupported part, and otherwise writes the canonical form. |
| JsonInjective.ParseEncoded | packages/shared/src/commitments/index.ts:20-49 | A reference parser of the JSON grammar reads back the canonical form of what was encoded. |
| JsonInjective.SameCanonical | packages/shared/src/commitments/index.ts:32-44 | Being the same up to key order is having the same canonical form. |
| JsonInjective.SortedAscends | packages/shared/src/commitments/index.ts:34-35 | The keys are written in strictly ascending order of their code units. |
| JsonInjective.LoneHoleCollides | packages/shared/src/commitments/index.ts:25-26 | Why holes are set apart: an array of one hole and an empty array have one text. |
| JsonParser.StringBack | packages/shared/src/commitments/index.ts:21-22 | Every string of code units, lone surrogates included, reads back from its escaped text. |
| JsonParser.ValueBack | packages/shared/src/commitments/index.ts:20-49 | Every canonical value reads back, whatever follows it. |
| Money.RoundTrip | packages/shared/src/money/index.ts:16-31 | Every non-negative amount survives formatting and parsing. |
| Money.NegativeRoundTrip | packages/shared/src/money/index.ts:16-31 | A negative one survives exactly when its fractional part is zero or has exactly five digits; shorter ones do not parse. |

## Left out

- Evidence records and their acknowledgement: append-only maps beside the settlement state.
- Hashes are opaque values and digests ideal: equal digests mean equal contents; the lease identifier and rule version in
  events carry no further meaning and are dropped.
- The resolver registry: its answer to a funding call is a parameter, since its source is not part of this model.
- A token other than MockUSD: how its calls end is a parameter of the escrow; solvency is proved for MockUSD.
- Reentrancy: token calls are atomic steps, and the escrow's guard against reentry is not modelled.
- Block times are natural numbers of unbounded width. The sum that fixes the hard end reverts at deployment when it
  exceeds 256 bits, and the deadlines of a claims case stay below the hard end (`EscrowGuarantees.DeadlinesContained`).
  The sums of a time before the lease end with the checkout response time or the retry delay, and the running revision
  and case numbers, are not modelled as overflowing. Sums of amounts that could overflow are.
- Constructor calls with malformed addresses beyond the checks of the constructor, view functions, and the lease factory.
- Gas, and the order of transactions within a block.
- Job retry codes, error codes, payload text and row timestamps other than the creation time; the width limits of the
  input schema other than that of deadlines and the claim time.
- One store call sees one moment of the clock; the original reads the clock more than once within a transaction.
- The unique key of a job is a tuple; the original joins its parts with colons, which none of the parts contains.
- Signing and encoding of transactions: a signed transaction is its chain, target, value, call and remaining bytes.
- The executor's first pass over rows awaiting reconciliation: those calls are among the interfering ones of the first gap.
- A chain that changes during one synchronization: it is taken to stay put, as its closing hash comparison is meant to
  ensure; block hashes are ideal, standing for the chain up to their block.
- Case snapshots, member roles and term checks written with a lease snapshot: whether they pass is a parameter.
- The allocation fold and its state machine in the worker's indexer, the RPC caller, and the in-memory demo of the web
  application, which are not the contract's behaviour.
- Non-integer numbers, dates, symbols and class instances are one unsupported value to the encoder; getters, proxies,
  properties keyed by symbols or not enumerable, which the key listing ignores, and array properties that are not elements
  are not modelled.
- Whitespace in amounts is the Latin-1 part of the language's whitespace.
- Commitment hashing beyond the canonical text, storage, sessions, uploads, exports and all pages of the application.
