/** What a run can never undo: deadlines once written, cases once advanced, proposal numbers once used. */
module EscrowHistory {
  import opened EscrowTypes
  import opened ClaimTotals
  import opened EventLog
  import opened EscrowSpec
  import opened EscrowLoops
  import opened EscrowInvariant
  import opened EscrowPreservation
  import opened EscrowAudit
  import opened EscrowGuarantees

  /** How far a case has come. */
  function CaseRank(p: CasePhase): nat {
    match p
    case NoPhase => 0
    case Primary => 1
    case Proposed => 2
    case Fallback => 3
    case ExitPending => 4
    case Finalized => 5
  }

  /** A deadline is written at most once. */
  predicate WriteOnce(before: nat, after: nat) {
    before != 0 ==> after == before
  }

  predicate CaseEvolves(c: ActiveCase, d: ActiveCase) {
    && d.caseType == c.caseType && d.primaryDeadline == c.primaryDeadline
    && CaseRank(c.phase) <= CaseRank(d.phase)
    && WriteOnce(c.challengeDeadline, d.challengeDeadline)
    && WriteOnce(c.fallbackDeadline, d.fallbackDeadline)
    && WriteOnce(c.timeoutAt, d.timeoutAt)
  }

  /** `t` can come after `s` in one history. */
  predicate Evolves(s: State, t: State) {
    && t.terms == s.terms
    && (s.schedule.started ==> t.schedule == s.schedule)
    && (s.claimsClosed ==> t.claimsClosed)
    && (s.activeCase.exists_ ==> t.activeCase.exists_)
    && s.caseNonce <= t.caseNonce
    && (s.activeCase.exists_ && t.caseNonce == s.caseNonce ==> CaseEvolves(s.activeCase, t.activeCase))
    && (s.activeCase.exists_ && s.activeCase.caseType.Claims? ==> t.caseNonce == s.caseNonce)
    && s.proposalNonce <= t.proposalNonce
    && (t.proposal.proposalId == 0 || t.proposal == s.proposal || t.proposal.proposalId > s.proposalNonce)
    && (Final(s) ==> Final(t))
  }

  lemma EvolvesTrans(s: State, t: State, u: State)
    requires Evolves(s, t) && Evolves(t, u) && ProposalOk(s.proposal, s.accounting, s.proposalNonce, s.terms)
    requires ProposalOk(t.proposal, t.accounting, t.proposalNonce, t.terms)
    ensures Evolves(s, u)
  {
  }

  lemma AcceptTermsEvolves(s: State, sender: Address, now: nat, h: Hash)
    requires Inv(s) && AcceptTerms(s, sender, now, h).Done?
    ensures Evolves(s, AcceptTerms(s, sender, now, h).state)
  {
    hide Folded, TotalFrom, ClaimsOk, LogKept;
  }

  lemma CancelUnfundedEvolves(s: State, sender: Address)
    requires Inv(s) && CancelUnfunded(s, sender).Done?
    ensures Evolves(s, CancelUnfunded(s, sender).state)
  {
    hide Folded, TotalFrom, ClaimsOk, LogKept;
  }

  lemma ExpireUnfundedEvolves(s: State, sender: Address, now: nat)
    requires Inv(s) && ExpireUnfunded(s, sender, now).Done?
    ensures Evolves(s, ExpireUnfunded(s, sender, now).state)
  {
    hide Folded, TotalFrom, ClaimsOk, LogKept;
  }

  lemma FundEvolves(s: State, sender: Address, now: nat, amount: nat, registry: RegistryAnswer, token: TokenAnswer)
    requires Inv(s) && Fund(s, sender, now, amount, registry, token).Done?
    ensures Evolves(s, Fund(s, sender, now, amount, registry, token).state)
  {
    hide Folded, TotalFrom, ClaimsOk, LogKept;
  }

  lemma RequestCheckoutEvolves(s: State, sender: Address, now: nat, h: Hash)
    requires Inv(s) && RequestCheckout(s, sender, now, h).Done?
    ensures Evolves(s, RequestCheckout(s, sender, now, h).state)
  {
    hide Folded, TotalFrom, ClaimsOk, LogKept;
  }

  lemma RespondCheckoutEvolves(s: State, sender: Address, now: nat, agree: bool, h: Hash)
    requires Inv(s) && RespondCheckout(s, sender, now, agree, h).Done?
    ensures Evolves(s, RespondCheckout(s, sender, now, agree, h).state)
  {
    hide Folded, TotalFrom, ClaimsOk, LogKept;
  }

  lemma OpenCheckoutCaseEvolves(s: State, now: nat)
    requires Inv(s) && OpenCheckoutCase(s, now).Done?
    ensures Evolves(s, OpenCheckoutCase(s, now).state)
  {
    hide Folded, TotalFrom, ClaimsOk, LogKept;
  }

  /** Starting the claims of an unscheduled lease finalizes an open checkout case and writes the schedule. */
  lemma ReopenForm(s: State, at: nat)
    requires !s.schedule.started && StartClaims(InvalidateCheckoutCase(s), at).Done?
    ensures var t := StartClaims(InvalidateCheckoutCase(s), at).state;
      && t.terms == s.terms && t.caseNonce == s.caseNonce && t.proposalNonce == s.proposalNonce
      && (t.activeCase == s.activeCase
          || (s.activeCase.exists_ && t.activeCase == s.activeCase.(phase := CasePhase.Finalized)))
      && t.claimsClosed == s.claimsClosed && t.proposal == s.proposal
  {
    hide Folded, TotalFrom;
  }

  lemma StartScheduledSettlementEvolves(s: State, now: nat)
    requires Inv(s) && StartScheduledSettlement(s, now).Done?
    ensures Evolves(s, StartScheduledSettlement(s, now).state)
  {
    hide Folded, TotalFrom, ClaimsOk, StartClaims, InvalidateCheckoutCase, CaseOk;
    if !s.schedule.started { ReopenForm(InvalidateSettlement(s), s.terms.leaseEndAt); }
  }

  lemma SubmitClaimsEvolves(s: State, sender: Address, now: nat, inputs: seq<ClaimInput>)
    requires Inv(s) && SubmitClaims(s, sender, now, inputs).Done?
    ensures Evolves(s, SubmitClaims(s, sender, now, inputs).state)
  {
    hide Folded, TotalFrom, ClaimsOk, LogKept, CheckInputs, NewClaims;
  }

  lemma RespondClaimEvolves(s: State, sender: Address, now: nat, claimId: nat, accept: bool, h: Hash)
    requires Inv(s) && RespondClaim(s, sender, now, claimId, accept, h).Done?
    ensures Evolves(s, RespondClaim(s, sender, now, claimId, accept, h).state)
  {
    hide Folded, TotalFrom, ClaimsOk, LogKept, IsOpen;
  }

  lemma WaiveClaimEvolves(s: State, sender: Address, now: nat, claimId: nat)
    requires Inv(s) && WaiveClaim(s, sender, now, claimId).Done?
    ensures Evolves(s, WaiveClaim(s, sender, now, claimId).state)
  {
    hide Folded, TotalFrom, ClaimsOk, LogKept, IsOpen;
  }

  lemma CloseClaimsEvolves(s: State, now: nat)
    requires Inv(s) && CloseClaims(s, now).Done?
    ensures Evolves(s, CloseClaims(s, now).state)
  {
    hide Folded, TotalFrom, ClaimsOk, LogKept, CloseClaimsInternal, SettledFrom;
    if !s.claimsClosed { CloseForm(s); }
  }

  lemma OpenClaimCaseEvolves(s: State, now: nat)
    requires Inv(s) && OpenClaimCase(s, now).Done?
    ensures Evolves(s, OpenClaimCase(s, now).state)
  {
    hide Folded, TotalFrom, ClaimsOk, LogKept, ContestAll;
  }

  lemma ProposeDecisionEvolves(s: State, sender: Address, now: nat, caseId: nat, result: seq<DecisionInput>, h: Hash)
    requires Inv(s) && ProposeDecision(s, sender, now, caseId, result, h).Done?
    ensures Evolves(s, ProposeDecision(s, sender, now, caseId, result, h).state)
  {
    hide Folded, TotalFrom, ClaimsOk, LogKept, ValidDecision;
  }

  lemma ProposeCheckoutDecisionEvolves(s: State, sender: Address, now: nat, caseId: nat, approved: bool, h: Hash)
    requires Inv(s) && ProposeCheckoutDecision(s, sender, now, caseId, approved, h).Done?
    ensures Evolves(s, ProposeCheckoutDecision(s, sender, now, caseId, approved, h).state)
  {
    hide Folded, TotalFrom, ClaimsOk, LogKept;
  }

  lemma ChallengeEvolves(s: State, sender: Address, now: nat, caseId: nat, h: Hash)
    requires Inv(s) && Challenge(s, sender, now, caseId, h).Done?
    ensures Evolves(s, Challenge(s, sender, now, caseId, h).state)
  {
    hide Folded, TotalFrom, ClaimsOk, LogKept;
  }

  lemma EscalateTimeoutEvolves(s: State, sender: Address, now: nat, caseId: nat)
    requires Inv(s) && EscalateTimeout(s, sender, now, caseId).Done?
    ensures Evolves(s, EscalateTimeout(s, sender, now, caseId).state)
  {
    hide Folded, TotalFrom, ClaimsOk, LogKept;
  }

  lemma FinalizePrimaryEvolves(s: State, now: nat, caseId: nat)
    requires Inv(s) && FinalizePrimary(s, now, caseId).Done?
    ensures Evolves(s, FinalizePrimary(s, now, caseId).state)
  {
    if s.activeCase.caseType.Claims? { AwardEvolves(s, now, caseId); } else { CheckoutEndEvolves(s, now, caseId); }
    hide FinalizePrimary, Inv, Evolves;
  }

  lemma AwardEvolves(s: State, now: nat, caseId: nat)
    requires Inv(s) && FinalizePrimary(s, now, caseId).Done? && s.activeCase.caseType.Claims?
    ensures Evolves(s, FinalizePrimary(s, now, caseId).state)
  {
    hide Folded, TotalFrom, ClaimsOk, LogKept, ApplyDecision, AwardsFrom, AwardedFrom, LockstepFrom, FinishCheckoutCase;
    if s.activeCase.phase.Proposed? { ApplyForm(s); }
  }

  lemma CheckoutEndEvolves(s: State, now: nat, caseId: nat)
    requires Inv(s) && FinalizePrimary(s, now, caseId).Done? && !s.activeCase.caseType.Claims?
    ensures Evolves(s, FinalizePrimary(s, now, caseId).state)
  {
    hide Folded, TotalFrom, ClaimsOk, ProposalOk, ScheduleOk, ApplyDecision, FinishCheckoutCase;
    if s.activeCase.phase.Proposed? { FinishCheckoutForm(s, now, s.activeCase.checkoutApproved); }
  }

  lemma ResolveFallbackEvolves(s: State, sender: Address, now: nat, caseId: nat, result: seq<DecisionInput>, h: Hash)
    requires Inv(s) && ResolveFallback(s, sender, now, caseId, result, h).Done?
    ensures Evolves(s, ResolveFallback(s, sender, now, caseId, result, h).state)
  {
    hide Folded, TotalFrom, ClaimsOk, LogKept, ApplyDecision, AwardsFrom, AwardedFrom, LockstepFrom;
    ApplyForm(s.(decisions := result));
  }

  lemma ResolveFallbackCheckoutEvolves(s: State, sender: Address, now: nat, caseId: nat, approved: bool, h: Hash)
    requires Inv(s) && ResolveFallbackCheckout(s, sender, now, caseId, approved, h).Done?
    ensures Evolves(s, ResolveFallbackCheckout(s, sender, now, caseId, approved, h).state)
  {
    hide Folded, TotalFrom, ClaimsOk, LogKept;
  }

  /** Finishing a checkout case keeps its record, but for its phase. */
  lemma FinishCheckoutForm(s: State, now: nat, approved: bool)
    requires FinishCheckoutCase(s, now, approved).Done? && !s.schedule.started
    ensures var t := FinishCheckoutCase(s, now, approved).state;
      && t.terms == s.terms && t.activeCase == s.activeCase.(phase := CasePhase.Finalized)
      && t.caseNonce == s.caseNonce && t.proposalNonce == s.proposalNonce && t.claimsClosed == s.claimsClosed
      && (t.proposal == s.proposal || t.proposal == NO_PROPOSAL)
  {
    hide Folded;
  }

  lemma MarkServiceTimeoutEvolves(s: State, now: nat, caseId: nat)
    requires Inv(s) && MarkServiceTimeout(s, now, caseId).Done?
    ensures Evolves(s, MarkServiceTimeout(s, now, caseId).state)
  {
    hide Folded, TotalFrom, ClaimsOk, FinishCheckoutCase;
    if s.activeCase.phase.Fallback? && s.activeCase.caseType.Checkout? {
      var at := s.activeCase.fallbackDeadline;
      var s1 := Emit(s.(activeCase := s.activeCase.(timeoutAt := at)), ServiceTimedOut(caseId, at));
      assert Evolves(s, s1.(activeCase := s1.activeCase.(phase := CasePhase.Finalized)));
      FinishCheckoutForm(s1, now, false);
    }
  }

  lemma FinalizeTimeoutEvolves(s: State, now: nat, caseId: nat)
    requires Inv(s) && FinalizeTimeout(s, now, caseId).Done?
    ensures Evolves(s, FinalizeTimeout(s, now, caseId).state)
  {
    hide Folded, TotalFrom, ClaimsOk, LogKept, AllocateCredit, ScheduleOk, CaseOk, ProposalOk;
    CreditForm(s, s.terms.tenant, s.accounting.unallocated, Timeout);
  }

  lemma OpenForExpiryEvolves(s: State)
    requires Inv(s) && s.accounting.unallocated > 0
    ensures OpenForExpiry(s).Done? && Evolves(s, OpenForExpiry(s).state)
  {
    hide Folded, TotalFrom, ClaimsOk, StartClaims, InvalidateCheckoutCase, CaseOk, ScheduleOk, ValidDecision;
    OpenForExpiryForm(s);
    if !s.schedule.started { ReopenForm(s, s.terms.leaseEndAt); }
  }

  lemma CloseStageEvolves(s: State)
    requires Inv(s) && Underway(s)
    ensures CloseClaimsInternal(s).Done? && Evolves(s, CloseClaimsInternal(s).state)
  {
    hide Folded, TotalFrom, ClaimsOk, LogKept, CloseClaimsInternal, SettledFrom, ScheduleOk;
    CloseStage(s);
    if s.phase.ClaimsOpen? { CloseForm(s); } else { ClosedAlready(s); }
  }

  lemma ClosedAlready(s: State)
    requires s.claimsClosed
    ensures CloseClaimsInternal(s) == Done(s)
  {
  }

  lemma AwardStageEvolves(s: State, now: nat)
    requires Inv(s) && now >= s.terms.hardEndAt && s.claimsClosed && (Underway(s) || s.phase.Allocated?)
    ensures AwardUnchallenged(s, now).Done? && Evolves(s, AwardUnchallenged(s, now).state)
  {
    hide Folded, TotalFrom, ClaimsOk, LogKept, ApplyDecision, ValidDecision, AwardsFrom, AwardedFrom, LockstepFrom;
    AwardUnchallengedForm(s, now);
    if UnchallengedProposal(s, now) { ApplyForm(s); }
  }

  lemma RestToTenantEvolves(s: State)
    requires Base(s) && s.accounting.fundedAmount > 0
    ensures RestToTenant(s).Done? && Evolves(s, RestToTenant(s).state)
  {
    hide Folded, TotalFrom, ClaimsOk, LogKept, AllocateCredit;
    CreditForm(s, s.terms.tenant, s.accounting.unallocated, HardEnd);
  }

  lemma ExpireEscrowEvolves(s: State, now: nat)
    requires Inv(s) && ExpireEscrow(s, now).Done?
    ensures Evolves(s, ExpireEscrow(s, now).state)
  {
    hide Inv, OpenForExpiry, CloseClaimsInternal, AwardUnchallenged, RestToTenant, Evolves, UnchallengedProposal;
    if s.accounting.unallocated == 0 {
      UnallocatedExactly(s);
      StaysPut(s);
    } else {
      UnallocatedFunded(s);
      OpenForExpiryForm(s);
      OpenForExpiryEvolves(s);
      var s1 := OpenForExpiry(s).state;
      CloseStage(s1);
      CloseStageEvolves(s1);
      var s2 := CloseClaimsInternal(s1).state;
      AwardUnchallengedForm(s2, now);
      AwardStageEvolves(s2, now);
      var s3 := AwardUnchallenged(s2, now).state;
      RestToTenantEvolves(s3);
      ProposalsOk(s);
      ProposalsOk(s1);
      ProposalsOk(s2);
      EvolvesTrans(s, s1, s2);
      EvolvesTrans(s, s2, s3);
      EvolvesTrans(s, s3, RestToTenant(s3).state);
    }
  }

  lemma StaysPut(s: State)
    ensures Evolves(s, s)
  {
  }

  lemma ProposalsOk(s: State)
    requires Inv(s)
    ensures ProposalOk(s.proposal, s.accounting, s.proposalNonce, s.terms)
  {
    hide TotalFrom, ClaimsOk, CaseOk, PhaseOk, ScheduleOk, ProposalOk;
  }

  lemma ProposeSettlementEvolves(s: State, sender: Address, now: nat, tenantShare: nat, landlordShare: nat, revision: nat,
      validUntil: nat, h: Hash)
    requires Inv(s) && ProposeSettlement(s, sender, now, tenantShare, landlordShare, revision, validUntil, h).Done?
    ensures Evolves(s, ProposeSettlement(s, sender, now, tenantShare, landlordShare, revision, validUntil, h).state)
  {
    hide Folded, TotalFrom, ClaimsOk, LogKept;
  }

  lemma ConfirmSettlementEvolves(s: State, sender: Address, now: nat, id: nat)
    requires Inv(s) && ConfirmSettlement(s, sender, now, id).Done?
    ensures Evolves(s, ConfirmSettlement(s, sender, now, id).state)
  {
    hide Folded, TotalFrom, ClaimsOk, LogKept, PayShares;
    SharesForm(s.(proposal := NO_PROPOSAL), s.proposal.tenantShare, s.proposal.landlordShare);
  }

  lemma WithdrawToEvolves(s: State, sender: Address, to: Address, allowZero: bool, token: TokenAnswer)
    requires Inv(s) && WithdrawTo(s, sender, to, allowZero, token).Done?
    ensures Evolves(s, WithdrawTo(s, sender, to, allowZero, token).state)
  {
    hide Folded, TotalFrom, ClaimsOk, LogKept;
  }


  lemma ExecEvolves(s: State, sender: Address, now: nat, call: Call)
    requires Inv(s) && Exec(s, sender, now, call).Done?
    ensures Evolves(s, Exec(s, sender, now, call).state)
  {
    hide Inv, Evolves, AcceptTerms, CancelUnfunded, ExpireUnfunded, Fund, RequestCheckout, RespondCheckout;
    hide OpenCheckoutCase, StartScheduledSettlement, SubmitClaims, RespondClaim, WaiveClaim, CloseClaims;
    hide OpenClaimCase, ProposeDecision, ProposeCheckoutDecision, Challenge, EscalateTimeout, FinalizePrimary;
    hide ResolveFallback, ResolveFallbackCheckout, MarkServiceTimeout, FinalizeTimeout, ExpireEscrow;
    hide ProposeSettlement, ConfirmSettlement, WithdrawTo;
    match call {
      case CallAcceptTerms(h) => AcceptTermsEvolves(s, sender, now, h);
      case CallCancelUnfunded => CancelUnfundedEvolves(s, sender);
      case CallExpireUnfunded => ExpireUnfundedEvolves(s, sender, now);
      case CallFund(amount, registry, token) => FundEvolves(s, sender, now, amount, registry, token);
      case CallRequestCheckout(h) => RequestCheckoutEvolves(s, sender, now, h);
      case CallRespondCheckout(agree, h) => RespondCheckoutEvolves(s, sender, now, agree, h);
      case CallOpenCheckoutCase => OpenCheckoutCaseEvolves(s, now);
      case CallStartScheduledSettlement => StartScheduledSettlementEvolves(s, now);
      case CallSubmitClaims(inputs) => SubmitClaimsEvolves(s, sender, now, inputs);
      case CallRespondClaim(id, accept, h) => RespondClaimEvolves(s, sender, now, id, accept, h);
      case CallWaiveClaim(id) => WaiveClaimEvolves(s, sender, now, id);
      case CallCloseClaims => CloseClaimsEvolves(s, now);
      case CallOpenClaimCase => OpenClaimCaseEvolves(s, now);
      case CallProposeDecision(id, result, h) => ProposeDecisionEvolves(s, sender, now, id, result, h);
      case CallProposeCheckoutDecision(id, approved, h) =>
        ProposeCheckoutDecisionEvolves(s, sender, now, id, approved, h);
      case CallChallenge(id, h) => ChallengeEvolves(s, sender, now, id, h);
      case CallEscalateTimeout(id) => EscalateTimeoutEvolves(s, sender, now, id);
      case CallFinalizePrimary(id) => FinalizePrimaryEvolves(s, now, id);
      case CallResolveFallback(id, result, h) => ResolveFallbackEvolves(s, sender, now, id, result, h);
      case CallResolveFallbackCheckout(id, approved, h) =>
        ResolveFallbackCheckoutEvolves(s, sender, now, id, approved, h);
      case CallMarkServiceTimeout(id) => MarkServiceTimeoutEvolves(s, now, id);
      case CallFinalizeTimeout(id) => FinalizeTimeoutEvolves(s, now, id);
      case CallExpireEscrow => ExpireEscrowEvolves(s, now);
      case CallProposeSettlement(a, l, rev, until, h) => ProposeSettlementEvolves(s, sender, now, a, l, rev, until, h);
      case CallConfirmSettlement(id) => ConfirmSettlementEvolves(s, sender, now, id);
      case CallWithdraw(token) => WithdrawToEvolves(s, sender, sender, false, token);
      case CallWithdrawFor(b, token) => WithdrawToEvolves(s, sender, b, true, token);
    }
  }

  /** Along a whole run. */
  lemma {:induction false} RunEvolves(s: State, txs: seq<Tx>)
    requires Inv(s)
    ensures Inv(Run(s, txs)) && Evolves(s, Run(s, txs))
    decreases |txs|
  {
    hide Inv, Exec, Evolves;
    if txs == [] {
      StaysPut(s);
    } else {
      var tx := txs[0];
      var t := Step(s, tx);
      if Exec(s, tx.sender, tx.now, tx.call).Done? {
        ExecKeeps(s, tx.sender, tx.now, tx.call);
        ExecEvolves(s, tx.sender, tx.now, tx.call);
      } else {
        StaysPut(s);
      }
      RunEvolves(t, txs[1..]);
      ProposalsOk(s);
      ProposalsOk(t);
      EvolvesTrans(s, t, Run(t, txs[1..]));
    }
  }

  /** A superseded settlement proposal can never be confirmed again, whatever happens later. */
  lemma SupersededForever(s: State, txs: seq<Tx>, id: nat, sender: Address, now: nat)
    requires Inv(s) && Superseded(s, id)
    ensures Superseded(Run(s, txs), id)
    ensures ConfirmSettlement(Run(s, txs), sender, now, id) == Reverted(ProposalNotFound)
  {
    hide Inv, Run;
    RunEvolves(s, txs);
    SupersededRefused(Run(s, txs), sender, now, id);
  }
}
