/** A value that may be absent. */
module Options {
  datatype Option<+T> = None | Some(value: T)
}

/** The storage layout, errors and events of one lease's escrow
    (contracts/src/DepositEscrow.sol:13-305). */
module EscrowTypes {
  import opened Options
  import opened RentBondRules

  type Address = nat
  type Hash = nat
  const ZERO_ADDRESS: Address := 0
  const ZERO_HASH: Hash := 0

  datatype Phase =
    | AwaitingAcceptance | AwaitingFunding | Active | CheckoutRequested | CheckoutCase
    | ClaimsOpen | ClaimsReview | ClaimCase | ExitPending | Cancelled | Allocated | Closed

  datatype ClaimStatus = Pending | Accepted | Disputed | Waived | Allocated

  datatype CasePhase = NoPhase | Primary | Proposed | Fallback | ExitPending | Finalized

  datatype CaseType = NoType | Checkout | Claims

  /** keccak256 of what a resolver or a timing profile commits to, taken as an ideal (injective) digest. */
  datatype Digest =
    | NoDigest
    | ClaimsDigest(caseId: nat, reasons: Hash, result: seq<DecisionInput>)
    | CheckoutDigest(checkoutCaseId: nat, approved: bool, checkoutReasons: Hash)
    | TimingDigest(timing: Timing, policy: Hash)

  const TIMEOUT_RETURN_UNAWARDED_TO_TENANT: Hash := 1

  datatype Terms = Terms(
    leaseId: Hash, tenant: Address, landlord: Address,
    primaryResolver: Address, fallbackResolver: Address, token: Address,
    depositAmount: nat, leaseEndAt: nat, hardEndAt: nat, timeoutPolicy: Hash, termsHash: Hash,
    timingProfileId: Digest, serviceProfileId: Hash, serviceTermsHash: Hash,
    registryAddress: Address, acceptDeadline: nat, timing: Timing)

  datatype Accounting = Accounting(
    fundedAmount: nat, unallocated: nat, tenantCredit: nat, landlordCredit: nat,
    tenantWithdrawn: nat, landlordWithdrawn: nat, revision: nat)

  datatype ClaimInput = ClaimInput(amount: nat, commitment: Hash)

  datatype Claim = Claim(
    id: nat, amount: nat, commitment: Hash, responseCommitment: Hash, status: ClaimStatus,
    landlordAllocated: nat, tenantAllocated: nat)

  datatype ActiveCase = ActiveCase(
    caseId: nat, caseType: CaseType, openedAt: nat, disputedAmount: nat,
    evidenceDeadline: nat, primaryDeadline: nat, challengeDeadline: nat,
    fallbackStartAt: nat, fallbackDeadline: nat, timeoutAt: nat, proposalAt: nat,
    proposalHash: Hash, challengeCommitment: Hash, decisionHash: Digest,
    phase: CasePhase, exists_: bool, checkoutApproved: bool)

  datatype Schedule = Schedule(
    startedAt: nat, claimDeadline: nat, responseDeadline: nat,
    evidenceDeadline: nat, primaryDeadline: nat, started: bool)

  datatype DecisionInput = DecisionInput(claimId: nat, landlordAmount: nat)

  datatype SettlementProposal = SettlementProposal(
    proposalId: nat, proposer: Address, tenantShare: nat, landlordShare: nat,
    snapshotRevision: nat, validUntil: nat, detailsHash: Hash)

  datatype CheckoutRequest = CheckoutRequest(
    requester: Address, evidenceHash: Hash, requestedAt: nat, responseDeadline: nat,
    exists_: bool, responded: bool, agreed: bool, caseOpened: bool, resolved: bool)

  const NO_ACCOUNTING := Accounting(0, 0, 0, 0, 0, 0, 0)
  const NO_CASE := ActiveCase(
    0, CaseType.NoType, 0, 0, 0, 0, 0, 0, 0, 0, 0, ZERO_HASH, ZERO_HASH, NoDigest,
    CasePhase.NoPhase, false, false)
  const NO_SCHEDULE := Schedule(0, 0, 0, 0, 0, false)
  const NO_PROPOSAL := SettlementProposal(0, ZERO_ADDRESS, 0, 0, 0, 0, ZERO_HASH)
  const NO_CHECKOUT := CheckoutRequest(ZERO_ADDRESS, ZERO_HASH, 0, 0, false, false, false, false, false)

  datatype Error =
    | Unauthorized | InvalidAddress | InvalidTerms | InvalidState | DeadlinePassed
    | DeadlineNotReached | HashMismatch | AlreadyFunded | AmountMismatch | ServiceNotEligible
    | ServiceNotAccepted | ServiceRevoked | OutsideServiceScope | TransferFailed
    | BalanceDeltaMismatch | NothingToWithdraw | TooManyClaims | ClaimsExceedDeposit
    | ClaimsAlreadySubmitted | ClaimNotFound | ClaimAlreadyFinalized | ClaimResponseClosed
    | ClaimsNotClosed | CaseAlreadyOpened | NoDisputedBalance | InvalidCommitment
    | InvalidDecisionVector | ProposalAlreadyExists | ProposalNotFound | StaleProposal
    | ProposalExpired | InvalidSettlement | CaseNotFound | WrongCasePhase | WrongCaseType
    | ArithmeticPanic

  /** The reason recorded with a credit. */
  datatype Source =
    | Unclaimed | AcceptedClaim | WaivedClaim | DecisionLandlord | DecisionTenant
    | Timeout | HardEnd | SettlementTenant | SettlementLandlord

  datatype Event =
    | TermsAccepted(tenant: Address, termsHash: Hash)
    | LeaseCancelled(caller: Address, expired: bool)
    | Funded(funder: Address, amount: nat)
    | CreditAllocated(beneficiary: Address, credit: nat, source: Source)
    | Withdrawn(payee: Address, caller: Address, paid: nat)
    | ClaimsOpened(claimDeadline: nat)
    | ClaimsSubmitted(landlord: Address, claimCount: nat, totalAmount: nat)
    | ClaimResponded(claimId: nat, accepted: bool, responseCommitment: Hash)
    | ClaimWaived(waivedId: nat)
    | ClaimsClosed(unclaimedAmount: nat, acceptedAmount: nat, disputedAmount: nat)
    | CaseOpened(caseId: nat, caseType: CaseType, disputed: nat)
    | DecisionProposed(proposedCase: nat, resolver: Address, decisionHash: Digest, challengeDeadline: nat)
    | CaseEscalated(escalatedCase: nat, challenger: Address, challengeCommitment: Hash, fallbackDeadline: nat)
    | DecisionFinalized(finalCase: nat, finalHash: Digest)
    | ServiceTimedOut(timedOutCase: nat, timeoutAt: nat)
    | TimeoutAllocated(timeoutCase: nat, timeoutAmount: nat)
    | EscrowExpired(expiredAmount: nat)
    | SettlementProposed(proposal: SettlementProposal)
    | SettlementConfirmed(proposalId: nat, tenantShare: nat, landlordShare: nat)
    | CheckoutWasRequested(requester: Address, evidenceHash: Hash, responseDeadline: nat)
    | CheckoutResponded(responder: Address, agree: bool, respondedHash: Hash)
    | CheckoutCaseOpened(caseRequester: Address)
    | CheckoutCaseResolved(resolvedCase: nat, approved: bool)

  /** Everything one escrow stores, together with the log of events it has emitted. */
  datatype State = State(
    terms: Terms, phase: Phase, tenantAccepted: bool, accounting: Accounting,
    claims: seq<Claim>, activeCase: ActiveCase, schedule: Schedule,
    decisions: seq<DecisionInput>, proposal: SettlementProposal, checkout: CheckoutRequest,
    claimsSubmitted: bool, claimsClosed: bool, totalClaimAmount: nat,
    caseNonce: nat, proposalNonce: nat, log: seq<Event>)

  /** What an external call does: it reverts and changes nothing, or it leaves a new state. */
  datatype Outcome = Reverted(error: Error) | Done(state: State) {
    predicate IsFailure() { Reverted? }
    function PropagateFailure(): Outcome requires Reverted? { this }
    function Extract(): State requires Done? { state }
  }

  /** A checked condition; failing it reverts the call. */
  datatype Check = Pass | Fail(error: Error) {
    predicate IsFailure() { Fail? }
    function PropagateFailure(): Outcome requires Fail? { Reverted(error) }
  }

  function Require(condition: bool, error: Error): Check {
    if condition then Pass else Fail(error)
  }

  /** The state after a call: unchanged when it reverted. */
  function After(o: Outcome, before: State): State {
    if o.Done? then o.state else before
  }

  /** The error a call ended with, if any. */
  function ErrorOf(o: Outcome): Option<Error> {
    if o.Done? then None else Some(o.error)
  }

  /** How the service registry answers when a lease is funded
      (contracts/src/DepositEscrow.sol:403-418); the registry itself is not part of this model. */
  datatype RegistryAnswer = Eligible | NotAccepted | ClosedForFunding | OutOfScope | NotEligible

  /** How a token call made by the escrow ended. */
  datatype TokenAnswer = Moved | CallFailed | WrongDelta
}
