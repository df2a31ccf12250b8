/** Exactly when the escrow accepts a call, and which of its reverts can never happen. */
module EscrowGuarantees {
  import opened RentBondRules
  import opened EscrowTypes
  import opened ClaimTotals
  import opened EscrowSpec
  import opened EscrowLoops
  import opened EscrowInvariant
  import opened EscrowPreservation

  // ---------- exact acceptance of the public calls ----------

  predicate CaseIs(s: State, caseId: nat, phase: CasePhase) {
    s.activeCase.exists_ && s.activeCase.caseId == caseId && s.activeCase.phase == phase
  }

  lemma InvalidatedPhase(s: State)
    ensures InvalidateSettlement(s).phase == s.phase && InvalidateSettlement(s).terms == s.terms
  {
  }

  lemma StartScheduledSettlementAccepted(s: State, now: nat)
    requires Inv(s)
    ensures StartScheduledSettlement(s, now).Done? <==>
      s.schedule.started
      || ((s.phase.Active? || s.phase.CheckoutRequested? || s.phase.CheckoutCase?)
          && s.terms.leaseEndAt <= now < s.terms.hardEndAt)
  {
    hide StartClaims, InvalidateCheckoutCase, InvalidateSettlement, Inv, Base;
    if !s.schedule.started && (s.phase.Active? || s.phase.CheckoutRequested? || s.phase.CheckoutCase?) {
      var s1 := InvalidateSettlement(s);
      InvalidateKeeps(s);
      InvalidatedPhase(s);
      InvalidateCheckoutForm(s1);
      StartClaimsOpens(InvalidateCheckoutCase(s1), s.terms.leaseEndAt);
    }
  }

  lemma CloseClaimsAccepted(s: State, now: nat)
    requires Inv(s)
    ensures CloseClaims(s, now).Done? <==>
      s.claimsClosed || (s.phase.ClaimsOpen? && s.schedule.claimDeadline <= now < s.terms.hardEndAt)
  {
    if s.phase.ClaimsOpen? { CloseKeeps(s); }
    hide CloseClaimsInternal, Inv;
  }

  lemma OpenClaimCaseAccepted(s: State, now: nat)
    requires Inv(s)
    ensures OpenClaimCase(s, now).Done? <==>
      s.phase.ClaimsReview? && s.schedule.responseDeadline <= now < s.terms.hardEndAt
  {
    if s.phase.ClaimsReview? { ContestNothing(s); }
    hide TotalFrom, ContestAll, ClaimsOk, ScheduleOk, ProposalOk;
  }

  lemma OpenCheckoutCaseAccepted(s: State, now: nat)
    requires Inv(s)
    ensures OpenCheckoutCase(s, now).Done? <==>
      s.phase.CheckoutRequested? && (s.checkout.responded || now >= s.checkout.responseDeadline)
      && now < s.terms.leaseEndAt
  {
    hide TotalFrom, ClaimsOk, ScheduleOk, ProposalOk, CaseOk;
  }

  lemma EscalateTimeoutAccepted(s: State, sender: Address, now: nat, caseId: nat)
    requires Inv(s)
    ensures EscalateTimeout(s, sender, now, caseId).Done? <==>
      CaseIs(s, caseId, CasePhase.Primary) && now >= s.activeCase.primaryDeadline
  {
    hide TotalFrom, ClaimsOk, ScheduleOk, ProposalOk;
  }

  lemma FinalizePrimaryAccepted(s: State, now: nat, caseId: nat)
    requires Inv(s)
    ensures FinalizePrimary(s, now, caseId).Done? <==>
      CaseIs(s, caseId, CasePhase.Finalized)
      || (CaseIs(s, caseId, CasePhase.Proposed) && now >= s.activeCase.challengeDeadline)
  {
    if s.activeCase.exists_ && s.activeCase.phase.Proposed? { ApplyActiveKeeps(s, now); }
    hide ApplyActiveDecision, Inv;
  }

  lemma MarkServiceTimeoutAccepted(s: State, now: nat, caseId: nat)
    requires Inv(s)
    ensures MarkServiceTimeout(s, now, caseId).Done? <==>
      CaseIs(s, caseId, CasePhase.Finalized)
      || (CaseIs(s, caseId, CasePhase.Fallback) && now >= s.activeCase.fallbackDeadline)
  {
    hide TotalFrom, ClaimsOk, ScheduleOk, ProposalOk, FinishCheckoutCase;
    if CaseIs(s, caseId, CasePhase.Fallback) && now >= s.activeCase.fallbackDeadline {
      if s.activeCase.caseType.Checkout? { MarkCheckoutCaseKeeps(s, now, caseId); }
      else { MarkClaimCaseKeeps(s, now, caseId); }
    }
    hide Inv;
  }

  lemma FinalizeTimeoutAccepted(s: State, now: nat, caseId: nat)
    requires Inv(s)
    ensures FinalizeTimeout(s, now, caseId).Done? <==>
      CaseIs(s, caseId, CasePhase.Finalized)
      || (CaseIs(s, caseId, CasePhase.ExitPending) && now >= s.activeCase.timeoutAt)
  {
    hide TotalFrom, ClaimsOk, ScheduleOk, ProposalOk, AllocateCredit, PhaseOk, LogKept;
    CreditForm(s, s.terms.tenant, s.accounting.unallocated, Timeout);
  }

  lemma ExpireEscrowAccepted(s: State, now: nat)
    requires Inv(s)
    ensures ExpireEscrow(s, now).Done? <==> s.accounting.fundedAmount > 0 && now >= s.terms.hardEndAt
  {
    hide OpenForExpiry, CloseClaimsInternal, AwardUnchallenged, RestToTenant, Inv;
    if s.accounting.fundedAmount > 0 && now >= s.terms.hardEndAt {
      if s.accounting.unallocated > 0 { ExpireEscrowForm(s, now); } else { UnallocatedExactly(s); }
    }
  }

  // ---------- proposal freshness ----------

  /** A stored proposal is never stale: a confirmation is refused only for its caller, its number or the time. */
  lemma ConfirmSettlementAccepted(s: State, sender: Address, now: nat, id: nat)
    requires Inv(s)
    ensures ConfirmSettlement(s, sender, now, id).Done? <==>
      && id != 0 && s.proposal.proposalId == id && IsParty(s.terms, sender) && sender != s.proposal.proposer
      && now < s.proposal.validUntil && now < s.terms.hardEndAt
      && (CaseIs(s, s.activeCase.caseId, CasePhase.ExitPending) ==> now < s.activeCase.timeoutAt)
    ensures ConfirmSettlement(s, sender, now, id) != Reverted(StaleProposal)
  {
    hide TotalFrom, ClaimsOk, ScheduleOk, CaseOk, PayShares, LogKept, PhaseOk;
    if s.proposal.proposalId != 0 {
      SharesForm(s.(proposal := NO_PROPOSAL), s.proposal.tenantShare, s.proposal.landlordShare);
    }
  }

  /** A proposal number that was issued and is no longer pending. */
  predicate Superseded(s: State, id: nat) {
    0 < id <= s.proposalNonce && s.proposal.proposalId != id
  }

  lemma SupersededRefused(s: State, sender: Address, now: nat, id: nat)
    requires Superseded(s, id)
    ensures ConfirmSettlement(s, sender, now, id) == Reverted(ProposalNotFound)
  {
  }

  // ---------- decision lockstep ----------

  /** A pending claims decision stays exactly in step with the disputed claims: applying it cannot revert,
      pays out precisely what was still unallocated, and gives each disputed claim its own entry's award. */
  lemma PendingDecisionApplies(s: State)
    requires Inv(s) && s.phase.ClaimCase? && s.activeCase.phase.Proposed?
    ensures ValidDecision(s.claims, s.decisions)
    ensures var o := ApplyDecision(s);
      && o.Done? && o.state.accounting.unallocated == 0
      && o.state.accounting.landlordCredit == s.accounting.landlordCredit + AwardsFrom(s.decisions, 0)
      && |o.state.claims| == |s.claims|
      && forall j :: 0 <= j < |s.claims| ==>
           if s.claims[j].status.Disputed?
           then o.state.claims[j].landlordAllocated <= s.claims[j].amount
                && o.state.claims[j] == Award(s.claims[j], o.state.claims[j].landlordAllocated)
           else o.state.claims[j] == s.claims[j]
  {
    hide TotalFrom, ClaimsOk, ScheduleOk, ProposalOk, ApplyDecision, AwardsFrom, AwardedFrom, LockstepFrom, LogKept;
    ApplyForm(s);
    AwardedAt(s.claims, 0, s.decisions, 0);
  }

  /** Entry by entry: the claim a decision names is awarded what that entry says. */
  lemma {:induction false} EntryAwarded(cs: seq<Claim>, i: nat, ds: seq<DecisionInput>, k: nat, m: nat)
    requires Numbered(cs) && LockstepFrom(ds, k, cs, i) && k <= m < |ds|
    ensures i < ds[m].claimId <= |cs|
    ensures AwardedFrom(cs, i, ds, k)[ds[m].claimId - 1].landlordAllocated == ds[m].landlordAmount
    decreases |cs| - i
  {
    if i >= |cs| {
      LockstepEnd(cs, i, ds, k);
    } else if cs[i].status.Disputed? {
      LockstepHead(cs, i, ds, k);
      var c := Award(cs[i], ds[k].landlordAmount);
      AwardedAt(cs[i := c], i + 1, ds, k + 1);
      if m > k { EntryAwarded(cs[i := c], i + 1, ds, k + 1, m); }
    } else {
      LockstepSkip(cs, i, ds, k);
      EntryAwarded(cs, i + 1, ds, k, m);
    }
  }

  // ---------- deadline containment ----------

  /** Every deadline of a claims case leaves room, under the hard end, for all that may still follow it. */
  lemma DeadlinesContained(s: State)
    requires Inv(s) && s.activeCase.exists_ && s.activeCase.caseType.Claims?
    ensures var c := s.activeCase; var t := s.terms.timing;
      && c.primaryDeadline + t.challenge + t.fallbackResolver + t.exitNotice <= s.terms.hardEndAt
      && (c.phase.Proposed? ==> c.challengeDeadline + t.fallbackResolver + t.exitNotice < s.terms.hardEndAt)
      && (c.phase.Fallback? ==> c.fallbackDeadline + t.exitNotice <= s.terms.hardEndAt)
      && (c.phase.ExitPending? ==> c.timeoutAt <= s.terms.hardEndAt)
      && s.terms.hardEndAt <= UINT_MAX
  {
    hide TotalFrom, ClaimsOk, ProposalOk, PhaseOk;
  }

  /** In a claims case the cap at the hard end never shortens a challenge or a fallback window. */
  lemma CapsNeverBind(s: State, sender: Address, now: nat, caseId: nat, h: Hash)
    requires Inv(s) && s.activeCase.exists_ && s.activeCase.caseType.Claims?
    ensures Challenge(s, sender, now, caseId, h).Done? ==>
      Challenge(s, sender, now, caseId, h).state.activeCase.fallbackDeadline == now + s.terms.timing.fallbackResolver
    ensures EscalateTimeout(s, sender, now, caseId).Done? ==>
      EscalateTimeout(s, sender, now, caseId).state.activeCase.fallbackDeadline
      == s.activeCase.primaryDeadline + s.terms.timing.fallbackResolver
  {
    hide TotalFrom, ClaimsOk, ProposalOk, PhaseOk;
  }

  lemma ChallengeWindowUncapped(s: State, sender: Address, now: nat, caseId: nat, result: seq<DecisionInput>, h: Hash)
    requires Inv(s) && ProposeDecision(s, sender, now, caseId, result, h).Done?
    ensures ProposeDecision(s, sender, now, caseId, result, h).state.activeCase.challengeDeadline
            == now + s.terms.timing.challenge
  {
    hide TotalFrom, ClaimsOk, ProposalOk, PhaseOk, ValidDecision;
  }

  /** Once a proposal's own checks pass, its challenge window is open: recording it cannot revert. */
  lemma RecordingNeverReverts(s: State, sender: Address, now: nat, h: Hash, digest: Digest, approved: bool)
    requires Inv(s) && s.activeCase.exists_ && s.activeCase.phase.Primary? && now < s.activeCase.primaryDeadline
    ensures RecordPrimaryProposal(s, sender, now, h, digest, approved).Done?
  {
    hide TotalFrom, ClaimsOk, ProposalOk, PhaseOk;
  }

  // ---------- the accounting and the claims ----------

  lemma LedgerOf(s: State)
    requires Inv(s)
    ensures s.totalClaimAmount == TotalFrom(s.claims, 0, AmountPart) <= s.accounting.fundedAmount
    ensures var ended := s.phase.Allocated? || s.phase.Closed?;
      var deciding := s.phase.ClaimsReview? || s.phase.ClaimCase? || s.phase.ExitPending?;
      && (!s.claimsClosed && !ended ==> s.accounting.unallocated == s.accounting.fundedAmount)
      && (deciding ==> s.accounting.unallocated == TotalFrom(s.claims, 0, DisputedPart) > 0)
      && (s.accounting.fundedAmount > 0 ==> (s.accounting.unallocated == 0 <==> ended))
      && (s.phase.Allocated? ==> s.accounting.tenantCredit + s.accounting.landlordCredit > 0)
      && (s.phase.Closed? ==>
            s.accounting.fundedAmount == s.accounting.tenantWithdrawn + s.accounting.landlordWithdrawn)
  {
    hide TotalFrom, CaseOk, ScheduleOk, ProposalOk, ValidDecision;
  }

  /** In every reachable state the accounting agrees with the claim ledger: nothing has left the unallocated funds
      before the claims close or the lease ends; while claims are decided, exactly the disputed ones are
      unallocated; nothing is unallocated exactly at the end; and a closed lease has paid everything out. */
  lemma LedgerAgreement(s: State)
    requires Reachable(s)
    ensures s.totalClaimAmount == TotalFrom(s.claims, 0, AmountPart) <= s.accounting.fundedAmount
    ensures var ended := s.phase.Allocated? || s.phase.Closed?;
      var deciding := s.phase.ClaimsReview? || s.phase.ClaimCase? || s.phase.ExitPending?;
      && (!s.claimsClosed && !ended ==> s.accounting.unallocated == s.accounting.fundedAmount)
      && (deciding ==> s.accounting.unallocated == TotalFrom(s.claims, 0, DisputedPart) > 0)
      && (s.accounting.fundedAmount > 0 ==> (s.accounting.unallocated == 0 <==> ended))
      && (s.phase.Allocated? ==> s.accounting.tenantCredit + s.accounting.landlordCredit > 0)
      && (s.phase.Closed? ==>
            s.accounting.fundedAmount == s.accounting.tenantWithdrawn + s.accounting.landlordWithdrawn)
  {
    hide Reachable, Inv, TotalFrom;
    ReachableInv(s);
    LedgerOf(s);
  }
}
