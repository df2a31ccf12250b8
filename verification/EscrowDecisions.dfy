/** What the parties' and the resolvers' calls do: exactly when each is accepted, with no revert hidden in a helper,
    and what it makes of the claims and the money. */
module EscrowDecisions {
  import opened RentBondRules
  import opened EscrowTypes
  import opened ClaimTotals
  import opened EventLog
  import opened EscrowSpec
  import opened EscrowLoops
  import opened EscrowInvariant
  import opened EscrowPreservation
  import opened EscrowGuarantees

  /** The money of two states differs by these credits, paid from the unallocated funds. */
  predicate Credits(a: Accounting, b: Accounting, toTenant: nat, toLandlord: nat) {
    && b.fundedAmount == a.fundedAmount && b.unallocated == a.unallocated - toTenant - toLandlord
    && b.tenantCredit == a.tenantCredit + toTenant && b.landlordCredit == a.landlordCredit + toLandlord
    && b.tenantWithdrawn == a.tenantWithdrawn && b.landlordWithdrawn == a.landlordWithdrawn
  }

  // ---------- claims ----------

  predicate GoodInput(x: ClaimInput) {
    IsBusinessAmount(x.amount, false) && x.commitment != ZERO_HASH
  }

  /** The checking loop passes exactly when every input is good and the sum stays within the deposit. */
  lemma {:induction false} InputsExactly(inputs: seq<ClaimInput>, i: nat, total: nat, funded: nat)
    requires i <= |inputs| && total <= funded <= UINT_MAX
    ensures CheckInputs(inputs, i, total, funded).Pass? <==>
      (forall j :: i <= j < |inputs| ==> GoodInput(inputs[j])) && total + InputTotal(inputs, i) <= funded
    decreases |inputs| - i
  {
    if i < |inputs| && GoodInput(inputs[i]) && total + inputs[i].amount <= funded {
      InputsExactly(inputs, i + 1, total + inputs[i].amount, funded);
    }
  }

  /** Claims are due within the schedule, so the hard end never stands in their way; the deposit fits its width. */
  lemma WithinHardEnd(s: State)
    requires Inv(s)
    ensures s.schedule.started ==>
      s.schedule.claimDeadline <= s.schedule.responseDeadline <= s.schedule.primaryDeadline < s.terms.hardEndAt
    ensures s.accounting.fundedAmount <= UINT_MAX
    ensures s.phase.ClaimsOpen? || s.phase.ClaimsReview? ==> s.schedule.started
    ensures s.claimsSubmitted <==> s.claims != []
  {
    hide TotalFrom, CaseOk, ProposalOk, ValidDecision;
  }

  lemma SubmitClaimsAccepted(s: State, sender: Address, now: nat, inputs: seq<ClaimInput>)
    requires Inv(s)
    ensures SubmitClaims(s, sender, now, inputs).Done? <==>
      && sender == s.terms.landlord && s.phase.ClaimsOpen? && !s.claimsSubmitted && now < s.schedule.claimDeadline
      && 0 < |inputs| <= 10 && (forall j :: 0 <= j < |inputs| ==> GoodInput(inputs[j]))
      && InputTotal(inputs, 0) <= s.accounting.fundedAmount
    ensures SubmitClaims(s, sender, now, inputs).Done? ==>
      var t := SubmitClaims(s, sender, now, inputs).state;
      && |t.claims| == |inputs| && Credits(s.accounting, t.accounting, 0, 0)
      && forall j :: 0 <= j < |inputs| ==>
           && t.claims[j].id == j + 1 && t.claims[j].amount == inputs[j].amount
           && t.claims[j].commitment == inputs[j].commitment && t.claims[j].status.Pending?
  {
    WithinHardEnd(s);
    InputsExactly(inputs, 0, 0, s.accounting.fundedAmount);
    hide Inv, CheckInputs, InputTotal, GoodInput, Folded;
  }

  lemma RespondClaimAccepted(s: State, sender: Address, now: nat, claimId: nat, accept: bool, h: Hash)
    requires Inv(s)
    ensures RespondClaim(s, sender, now, claimId, accept, h).Done? <==>
      && sender == s.terms.tenant && (s.phase.ClaimsOpen? || s.phase.ClaimsReview?)
      && now < s.schedule.responseDeadline && h != ZERO_HASH
      && 0 < claimId <= |s.claims| && IsOpen(s.claims[claimId - 1])
  {
    hide Inv, AllocateClaimToLandlord, RefreshAllocationPhase, InvalidateSettlement, Folded;
    WithinHardEnd(s);
    ReviewCovers(s, claimId);
    PartiesApart(s);
    if 0 < claimId <= |s.claims| && accept {
      var c := s.claims[claimId - 1].(status := Accepted, responseCommitment := h);
      if c.amount <= s.accounting.unallocated { LandlordPaid(s.(claims := s.claims[claimId - 1 := c]), claimId - 1); }
    }
  }

  lemma PartiesApart(s: State)
    requires Inv(s)
    ensures s.terms.tenant != s.terms.landlord
  {
    hide TotalFrom, ClaimsOk, CaseOk, ScheduleOk, ProposalOk, PhaseOk;
  }

  /** In review every open claim is covered by the unallocated funds. */
  lemma ReviewCovers(s: State, claimId: nat)
    requires Inv(s)
    ensures s.phase.ClaimsReview? && 0 < claimId <= |s.claims| && !s.claims[claimId - 1].status.Allocated? ==>
      s.claims[claimId - 1].amount <= s.accounting.unallocated && s.claimsClosed
    ensures s.phase.ClaimsOpen? ==> !s.claimsClosed
  {
    hide ClaimsOk, CaseOk, ScheduleOk, ProposalOk, ValidDecision;
    if s.phase.ClaimsReview? && 0 < claimId <= |s.claims| && s.claims[claimId - 1].status.Disputed? {
      PartBounded(s.claims, 0, claimId - 1);
    }
  }

  lemma {:induction false} PartBounded(cs: seq<Claim>, i: nat, k: nat)
    requires i <= k < |cs| && cs[k].status.Disputed?
    ensures cs[k].amount <= TotalFrom(cs, i, DisputedPart)
    decreases k - i
  {
    if i < k { PartBounded(cs, i + 1, k); }
  }

  /** Accepting a claim pays it to the landlord at once when the claims are closed; otherwise an answer only marks
      the claim. */
  lemma RespondClaimPays(s: State, sender: Address, now: nat, claimId: nat, accept: bool, h: Hash)
    requires Inv(s) && RespondClaim(s, sender, now, claimId, accept, h).Done?
    ensures var t := RespondClaim(s, sender, now, claimId, accept, h).state;
      var c := s.claims[claimId - 1];
      var paid := if s.claimsClosed && accept then c.amount else 0;
      && Credits(s.accounting, t.accounting, 0, paid) && |t.claims| == |s.claims|
      && t.claims[claimId - 1].landlordAllocated == paid && t.claims[claimId - 1].tenantAllocated == 0
      && (!(s.claimsClosed && accept) ==>
            t.claims[claimId - 1].status == if accept then ClaimStatus.Accepted else ClaimStatus.Disputed)
      && forall j :: 0 <= j < |s.claims| && j != claimId - 1 ==> t.claims[j] == s.claims[j]
  {
    hide Inv, AllocateClaimToLandlord, RefreshAllocationPhase, Folded;
    ReviewCovers(s, claimId);
    PartiesApart(s);
    Unallocated(s, claimId);
    var c := s.claims[claimId - 1].(status := if accept then Accepted else Disputed, responseCommitment := h);
    var s1 := s.(claims := s.claims[claimId - 1 := c]);
    if s.claimsClosed && accept {
      LandlordPaid(s1, claimId - 1);
      RefreshedAccounting(AllocateClaimToLandlord(s1, claimId - 1).state);
    } else {
      RefreshedAccounting(InvalidateSettlement(s1));
    }
  }

  lemma Unallocated(s: State, claimId: nat)
    requires Inv(s) && 0 < claimId <= |s.claims| && !s.claims[claimId - 1].status.Allocated?
    ensures s.claims[claimId - 1].landlordAllocated == 0 && s.claims[claimId - 1].tenantAllocated == 0
  {
    hide TotalFrom, CaseOk, ScheduleOk, ProposalOk, PhaseOk;
  }

  /** The landlord can waive a claim, an accepted one included, until it is allocated; but once the claims are closed,
      not if there is a case record, and be it of a checkout case long finished. */
  lemma WaiveClaimAccepted(s: State, sender: Address, now: nat, claimId: nat)
    requires Inv(s)
    ensures WaiveClaim(s, sender, now, claimId).Done? <==>
      && sender == s.terms.landlord && (s.phase.ClaimsOpen? || s.phase.ClaimsReview?)
      && (s.phase.ClaimsReview? ==> !s.activeCase.exists_) && now < s.terms.hardEndAt
      && 0 < claimId <= |s.claims| && !s.claims[claimId - 1].status.Waived? && !s.claims[claimId - 1].status.Allocated?
    ensures WaiveClaim(s, sender, now, claimId).Done? ==>
      var t := WaiveClaim(s, sender, now, claimId).state;
      var c := s.claims[claimId - 1];
      Credits(s.accounting, t.accounting, if s.claimsClosed then c.amount else 0, 0)
  {
    hide Inv, AllocateCredit, RefreshAllocationPhase, LogKept, Folded, AllocateClaimToTenant;
    WithinHardEnd(s);
    ReviewCovers(s, claimId);
    PartiesApart(s);
    if 0 < claimId <= |s.claims| {
      var c := s.claims[claimId - 1].(status := ClaimStatus.Waived);
      var s1 := s.(claims := s.claims[claimId - 1 := c]);
      RefreshedAccounting(InvalidateSettlement(s1));
      if c.amount <= s.accounting.unallocated {
        TenantPaid(s1, claimId - 1);
        RefreshedAccounting(AllocateClaimToTenant(s1, claimId - 1).state);
      }
    }
  }

  /** A waived claim covered by the unallocated funds is paid to the tenant. */
  lemma TenantPaid(s: State, i: nat)
    requires s.terms.tenant != s.terms.landlord && i < |s.claims|
    requires s.claims[i].status.Waived? && s.claims[i].amount <= s.accounting.unallocated
    ensures AllocateClaimToTenant(s, i).Done?
    ensures Credits(s.accounting, AllocateClaimToTenant(s, i).state.accounting, s.claims[i].amount, 0)
  {
    hide AllocateCredit, LogKept;
    CreditForm(s, s.terms.tenant, s.claims[i].amount, WaivedClaim);
  }

  /** And an accepted one to the landlord. */
  lemma LandlordPaid(s: State, i: nat)
    requires s.terms.tenant != s.terms.landlord && i < |s.claims|
    requires s.claims[i].status.Accepted? && s.claims[i].amount <= s.accounting.unallocated
    ensures var o := AllocateClaimToLandlord(s, i);
      && o.Done? && Credits(s.accounting, o.state.accounting, 0, s.claims[i].amount)
      && o.state.claims == s.claims[i := ToLandlord(s.claims[i])]
  {
    hide AllocateCredit, LogKept;
    CreditForm(s, s.terms.landlord, s.claims[i].amount, AcceptedClaim);
  }

  lemma RefreshedAccounting(s: State)
    ensures RefreshAllocationPhase(s).accounting == s.accounting && RefreshAllocationPhase(s).claims == s.claims
  {
    hide IsOpen;
  }

  // ---------- decisions ----------

  /** A primary decision is taken exactly when it answers the disputed claims, within its window; it opens a full
      challenge window. */
  lemma ProposeDecisionAccepted(s: State, sender: Address, now: nat, caseId: nat, result: seq<DecisionInput>, h: Hash)
    requires Inv(s)
    ensures ProposeDecision(s, sender, now, caseId, result, h).Done? <==>
      && sender == s.terms.primaryResolver && CaseIs(s, caseId, CasePhase.Primary) && s.activeCase.caseType.Claims?
      && s.activeCase.evidenceDeadline <= now < s.activeCase.primaryDeadline && h != ZERO_HASH
      && ValidDecision(s.claims, result)
    ensures ProposeDecision(s, sender, now, caseId, result, h).Done? ==>
      var t := ProposeDecision(s, sender, now, caseId, result, h).state;
      && t.decisions == result && t.claims == s.claims && Credits(s.accounting, t.accounting, 0, 0)
      && t.activeCase.phase.Proposed? && t.activeCase.challengeDeadline == now + s.terms.timing.challenge
  {
    hide TotalFrom, ClaimsOk, ProposalOk, PhaseOk, ValidDecision, Folded;
  }

  /** A challenge deletes the proposed decision and gives the fallback resolver his full time in a claims case. */
  lemma ChallengeAccepted(s: State, sender: Address, now: nat, caseId: nat, h: Hash)
    requires Inv(s)
    ensures Challenge(s, sender, now, caseId, h).Done? <==>
      && IsParty(s.terms, sender) && h != ZERO_HASH && CaseIs(s, caseId, CasePhase.Proposed)
      && now < s.activeCase.challengeDeadline
    ensures Challenge(s, sender, now, caseId, h).Done? ==>
      var t := Challenge(s, sender, now, caseId, h).state;
      && t.decisions == [] && t.claims == s.claims && Credits(s.accounting, t.accounting, 0, 0)
      && t.activeCase.phase.Fallback? && t.activeCase.fallbackStartAt == now
  {
    hide TotalFrom, ClaimsOk, ProposalOk, ValidDecision, Folded;
  }

  /** A fallback decision is taken exactly when it answers the disputed claims, within its window; it cannot revert
      when it is applied, and divides precisely what was in dispute. */
  lemma ResolveFallbackAccepted(s: State, sender: Address, now: nat, caseId: nat, result: seq<DecisionInput>, h: Hash)
    requires Inv(s)
    ensures ResolveFallback(s, sender, now, caseId, result, h).Done? <==>
      && sender == s.terms.fallbackResolver && CaseIs(s, caseId, CasePhase.Fallback) && s.activeCase.caseType.Claims?
      && s.activeCase.fallbackStartAt + s.terms.timing.fallbackEvidence <= now < s.activeCase.fallbackDeadline
      && h != ZERO_HASH && ValidDecision(s.claims, result)
    ensures ResolveFallback(s, sender, now, caseId, result, h).Done? ==>
      var t := ResolveFallback(s, sender, now, caseId, result, h).state;
      && t.phase.Allocated? && t.accounting.unallocated == 0 && AwardsFrom(result, 0) <= s.accounting.unallocated
      && Credits(s.accounting, t.accounting, s.accounting.unallocated - AwardsFrom(result, 0), AwardsFrom(result, 0))
      && LockstepFrom(result, 0, s.claims, 0) && t.claims == AwardedFrom(s.claims, 0, result, 0)
  {
    hide TotalFrom, ClaimsOk, ProposalOk, ScheduleOk, ValidDecision, Folded, ApplyDecision, AwardsFrom, AwardedFrom;
    hide LockstepFrom, LogKept;
    if CaseIs(s, caseId, CasePhase.Fallback) && s.activeCase.caseType.Claims? && ValidDecision(s.claims, result) {
      ApplyForm(s.(decisions := result));
    }
  }

  // ---------- settlements ----------

  /** A settlement can be proposed exactly of all that is unallocated, in whole units, at the present revision. */
  lemma ProposeSettlementAccepted(s: State, sender: Address, now: nat, tenantShare: nat, landlordShare: nat,
                                  revision: nat, until: nat, h: Hash)
    requires Inv(s)
    ensures ProposeSettlement(s, sender, now, tenantShare, landlordShare, revision, until, h).Done? <==>
      && IsParty(s.terms, sender) && s.accounting.unallocated > 0
      && (s.proposal.proposalId == 0 || now >= s.proposal.validUntil) && revision == s.accounting.revision
      && tenantShare + landlordShare == s.accounting.unallocated
      && IsBusinessAmount(tenantShare, true) && IsBusinessAmount(landlordShare, true)
      && now < until <= SettlementDeadline(s) && h != ZERO_HASH
  {
    WithinHardEnd(s);
    StillOpen(s);
    hide Inv, Folded;
  }

  lemma StillOpen(s: State)
    requires Inv(s)
    ensures s.accounting.unallocated > 0 ==>
      s.accounting.fundedAmount > 0 && !s.phase.Cancelled? && !s.phase.Allocated? && !s.phase.Closed?
    ensures s.accounting.unallocated <= s.accounting.fundedAmount
    ensures SettlementDeadline(s) <= s.terms.hardEndAt
  {
    hide TotalFrom, ClaimsOk, ScheduleOk, CaseOk, ProposalOk, ValidDecision;
  }

  /** Confirming pays both shares, and nothing is left. */
  lemma ConfirmSettlementPays(s: State, sender: Address, now: nat, id: nat)
    requires Inv(s) && ConfirmSettlement(s, sender, now, id).Done?
    ensures var t := ConfirmSettlement(s, sender, now, id).state;
      && Credits(s.accounting, t.accounting, s.proposal.tenantShare, s.proposal.landlordShare)
      && t.accounting.unallocated == 0 && t.phase.Allocated? && t.decisions == [] && t.claims == s.claims
  {
    hide Inv, PayShares, LogKept, Folded, ConfirmSettlement;
    PartiesApart(s);
    ConfirmForm(s, sender, now, id);
    SharesForm(s.(proposal := NO_PROPOSAL), s.proposal.tenantShare, s.proposal.landlordShare);
  }

  lemma ConfirmForm(s: State, sender: Address, now: nat, id: nat)
    requires ConfirmSettlement(s, sender, now, id).Done?
    ensures var p := s.proposal;
      var paid := PayShares(s.(proposal := NO_PROPOSAL), p.tenantShare, p.landlordShare);
      && p.tenantShare + p.landlordShare == s.accounting.unallocated && paid.Done?
      && ConfirmSettlement(s, sender, now, id)
         == Done(Emit(Conclude(paid.state), SettlementConfirmed(id, p.tenantShare, p.landlordShare)))
  {
    hide PayShares, Conclude, Emit;
  }

  // ---------- checkout ----------

  /** An agreement starts the claims then and there, and cannot revert; a refusal is recorded. */
  lemma RespondCheckoutAccepted(s: State, sender: Address, now: nat, agree: bool, h: Hash)
    requires Inv(s)
    ensures RespondCheckout(s, sender, now, agree, h).Done? <==>
      && IsParty(s.terms, sender) && s.phase.CheckoutRequested? && sender != s.checkout.requester
      && !s.checkout.responded && now < s.checkout.responseDeadline && h == s.checkout.evidenceHash
    ensures RespondCheckout(s, sender, now, agree, h).Done? ==>
      var t := RespondCheckout(s, sender, now, agree, h).state;
      && Credits(s.accounting, t.accounting, 0, 0)
      && (if agree then t.phase.ClaimsOpen? && t.schedule == ScheduleFrom(s.terms.timing, now) && t.checkout.resolved
          else t.phase.CheckoutRequested? && t.schedule == s.schedule && t.checkout.responded)
  {
    hide TotalFrom, ClaimsOk, CaseOk, ProposalOk, Folded;
  }

  // ---------- withdrawals ----------

  /** A withdrawal pays out exactly the whole credit of its beneficiary, to him only, and closes the lease with the
      last credit. */
  lemma WithdrawExactly(s: State, sender: Address, to: Address, allowZero: bool)
    requires Inv(s) && IsParty(s.terms, to)
    ensures var o := WithdrawTo(s, sender, to, allowZero, TokenAnswer.Moved);
      var a := s.accounting;
      var credit := if to == s.terms.tenant then a.tenantCredit else a.landlordCredit;
      if credit == 0 then o == (if allowZero then Done(s) else Reverted(NothingToWithdraw))
      else
        && o.Done? && o.state.claims == s.claims
        && o.state.accounting == (if to == s.terms.tenant
                                  then a.(tenantCredit := 0, tenantWithdrawn := a.tenantWithdrawn + credit)
                                  else a.(landlordCredit := 0, landlordWithdrawn := a.landlordWithdrawn + credit))
        && (o.state.phase.Closed? <==>
              s.accounting.unallocated == 0 && a.tenantCredit + a.landlordCredit == credit)
  {
    hide TotalFrom, ClaimsOk, ScheduleOk, CaseOk, ProposalOk, ValidDecision, Folded;
  }
}
