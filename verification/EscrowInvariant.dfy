/** What holds in every reachable state of an escrow. */
module EscrowInvariant {
  import opened RentBondRules
  import opened EscrowTypes
  import opened ClaimTotals
  import opened EscrowSpec
  import opened EscrowLoops

  /** What deployment has checked about the terms. */
  predicate TermsOk(t: Terms) {
    && t.tenant != ZERO_ADDRESS && t.landlord != ZERO_ADDRESS && t.tenant != t.landlord
    && ValidDeposit(t.depositAmount) && ValidTiming(t.timing)
    && t.acceptDeadline < t.leaseEndAt
    && t.hardEndAt == HardEndAt(t.leaseEndAt, t.timing) <= UINT_MAX
  }

  /** Conservation: every funded unit is unallocated, credited or withdrawn. */
  predicate Conserved(a: Accounting) {
    a.fundedAmount == a.unallocated + a.tenantCredit + a.landlordCredit + a.tenantWithdrawn + a.landlordWithdrawn
  }

  predicate ClaimOk(c: Claim) {
    && IsBusinessAmount(c.amount, false)
    && (if c.status.Allocated? then c.landlordAllocated + c.tenantAllocated == c.amount
        else c.landlordAllocated == 0 && c.tenantAllocated == 0)
  }

  predicate ClaimsOk(cs: seq<Claim>, submitted: bool, total: nat, funded: nat) {
    && |cs| <= 10 && Numbered(cs) && (submitted <==> cs != [])
    && (forall i :: 0 <= i < |cs| ==> ClaimOk(cs[i]))
    && total == TotalFrom(cs, 0, AmountPart) <= funded
  }

  predicate ScheduleOk(sch: Schedule, t: Terms) {
    if sch.started then sch.startedAt <= t.leaseEndAt && sch == ScheduleFrom(t.timing, sch.startedAt)
    else sch == NO_SCHEDULE
  }

  /** Deadlines of a checkout case never pass the lease end, and appear one phase at a time. */
  predicate CheckoutCaseOk(c: ActiveCase, t: Terms) {
    && 0 < c.evidenceDeadline <= c.primaryDeadline <= t.leaseEndAt
    && match c.phase
       case Primary => c.challengeDeadline == 0 && c.fallbackDeadline == 0 && c.timeoutAt == 0
       case Proposed => 0 < c.challengeDeadline <= t.leaseEndAt && c.fallbackDeadline == 0 && c.timeoutAt == 0
       case Fallback => 0 < c.fallbackDeadline <= t.leaseEndAt && c.timeoutAt == 0
       case Finalized => true
       case _ => false
  }

  /** Deadlines of a claims case: each phase's deadline is measured from the one before, uncapped. */
  predicate ClaimCaseOk(c: ActiveCase, t: Terms, sch: Schedule) {
    && sch.started && c.evidenceDeadline == sch.evidenceDeadline && c.primaryDeadline == sch.primaryDeadline
    && match c.phase
       case Primary => c.challengeDeadline == 0 && c.fallbackDeadline == 0 && c.timeoutAt == 0
       case Proposed => && c.proposalAt < c.primaryDeadline
                        && c.challengeDeadline == c.proposalAt + t.timing.challenge
                        && c.fallbackDeadline == 0 && c.timeoutAt == 0
       case Fallback => InFallback(c, t) && c.timeoutAt == 0
       case ExitPending => InFallback(c, t) && c.timeoutAt == c.fallbackDeadline + t.timing.exitNotice
       case Finalized => true
       case NoPhase => false
  }

  predicate InFallback(c: ActiveCase, t: Terms) {
    && c.fallbackStartAt <= c.primaryDeadline + t.timing.challenge
    && c.fallbackDeadline == c.fallbackStartAt + t.timing.fallbackResolver
  }

  predicate CaseOk(c: ActiveCase, nonce: nat, t: Terms, sch: Schedule) {
    if !c.exists_ then c == NO_CASE && nonce == 0
    else
      && c.caseId == nonce > 0
      && match c.caseType
         case Checkout => CheckoutCaseOk(c, t)
         case Claims => ClaimCaseOk(c, t, sch)
         case NoType => false
  }

  /** A pending proposal divides exactly the present unallocated funds, at the present revision. */
  predicate ProposalOk(p: SettlementProposal, a: Accounting, nonce: nat, t: Terms) {
    && p.proposalId <= nonce
    && if p.proposalId == 0 then p == NO_PROPOSAL
       else && p.snapshotRevision == a.revision && p.tenantShare + p.landlordShare == a.unallocated > 0
            && IsParty(t, p.proposer)
            && IsBusinessAmount(p.tenantShare, true) && IsBusinessAmount(p.landlordShare, true)
  }

  /** The case record is absent or closed; before any claims case it can only be a checkout case. */
  predicate CaseDone(c: ActiveCase) {
    c.exists_ ==> c.phase.Finalized?
  }

  predicate NoClaimsCase(c: ActiveCase) {
    c.exists_ ==> c.phase.Finalized? && c.caseType.Checkout?
  }

  predicate Unfunded(s: State) {
    && s.accounting.fundedAmount == 0 && s.claims == [] && !s.claimsClosed && !s.schedule.started
    && !s.activeCase.exists_ && !s.checkout.exists_ && s.decisions == []
  }

  /** Funded, and no claim process has begun. */
  predicate PreClaims(s: State) {
    && s.accounting.unallocated == s.accounting.fundedAmount > 0 && s.claims == [] && !s.claimsClosed
    && !s.schedule.started && s.decisions == []
  }

  /** Claims are closed and exactly the disputed ones are still unallocated. */
  predicate InReview(s: State) {
    && s.schedule.started && s.claimsClosed && s.accounting.fundedAmount > 0
    && (forall i :: 0 <= i < |s.claims| ==> s.claims[i].status.Disputed? || s.claims[i].status.Allocated?)
    && s.accounting.unallocated == TotalFrom(s.claims, 0, DisputedPart) > 0
  }

  predicate CheckoutOpen(c: CheckoutRequest) {
    c.exists_ && !c.resolved
  }

  predicate PhaseOk(s: State) {
    match s.phase
    case AwaitingAcceptance => Unfunded(s)
    case AwaitingFunding => Unfunded(s) && s.tenantAccepted
    case Cancelled => Unfunded(s)
    case Active => PreClaims(s) && NoClaimsCase(s.activeCase) && !CheckoutOpen(s.checkout)
    case CheckoutRequested =>
      && PreClaims(s) && NoClaimsCase(s.activeCase) && CheckoutOpen(s.checkout) && !s.checkout.caseOpened
      && s.checkout.responseDeadline <= s.terms.leaseEndAt
    case CheckoutCase =>
      && PreClaims(s) && CheckoutOpen(s.checkout)
      && s.activeCase.exists_ && s.activeCase.caseType.Checkout? && !s.activeCase.phase.Finalized?
    case ClaimsOpen =>
      && s.schedule.started && !s.claimsClosed && s.accounting.unallocated == s.accounting.fundedAmount > 0
      && NoneAllocated(s.claims, 0) && NoClaimsCase(s.activeCase) && s.decisions == []
    case ClaimsReview => InReview(s) && NoClaimsCase(s.activeCase) && s.decisions == []
    case ClaimCase =>
      && InReview(s) && s.activeCase.exists_ && s.activeCase.caseType.Claims?
      && !s.activeCase.phase.Finalized? && !s.activeCase.phase.ExitPending?
      && s.activeCase.disputedAmount == s.accounting.unallocated
      && (if s.activeCase.phase.Proposed? then ValidDecision(s.claims, s.decisions) else s.decisions == [])
    case ExitPending =>
      && InReview(s) && s.activeCase.exists_ && s.activeCase.caseType.Claims? && s.activeCase.phase.ExitPending?
      && s.activeCase.disputedAmount == s.accounting.unallocated && s.decisions == []
    case Allocated =>
      && s.accounting.fundedAmount > 0 && s.accounting.unallocated == 0 && CaseDone(s.activeCase)
      && s.accounting.tenantCredit + s.accounting.landlordCredit > 0
    case Closed =>
      && s.accounting.fundedAmount > 0 && s.accounting.unallocated == 0 && CaseDone(s.activeCase)
      && s.accounting.tenantCredit == 0 && s.accounting.landlordCredit == 0
  }

  /** What holds in every phase. */
  predicate Base(s: State) {
    && TermsOk(s.terms)
    && Conserved(s.accounting)
    && (s.accounting.fundedAmount == 0 || s.accounting.fundedAmount == s.terms.depositAmount)
    && ClaimsOk(s.claims, s.claimsSubmitted, s.totalClaimAmount, s.accounting.fundedAmount)
    && ScheduleOk(s.schedule, s.terms)
    && CaseOk(s.activeCase, s.caseNonce, s.terms, s.schedule)
    && ProposalOk(s.proposal, s.accounting, s.proposalNonce, s.terms)
  }

  /** The invariant. */
  predicate Inv(s: State) {
    Base(s) && PhaseOk(s)
  }

  /** Deployment establishes the invariant. */
  lemma DeployEstablishes(t: Terms, factory: Address, now: nat)
    requires Deploy(t, factory, now).Done?
    ensures Inv(Deploy(t, factory, now).state)
  {
  }
}
