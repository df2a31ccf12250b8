/** Every external function keeps the invariant. */
module EscrowPreservation {
  import opened RentBondRules
  import opened EscrowTypes
  import opened ClaimTotals
  import opened EventLog
  import opened EscrowSpec
  import opened EscrowLoops
  import opened EscrowInvariant

  // ---------- composite internal steps ----------

  /** Claims can always be started: the last exit of any schedule fits under the hard end. */
  lemma StartClaimsOpens(s: State, startedAt: nat)
    requires Base(s) && PreClaims(s) && NoClaimsCase(s.activeCase)
    ensures StartClaims(s, startedAt).Done? && Inv(StartClaims(s, startedAt).state)
    ensures StartClaims(s, startedAt).state.phase.ClaimsOpen?
  {
  }

  /** Closing pays out everything that is not in dispute, and cannot revert. */
  lemma CloseForm(s: State)
    requires Inv(s) && s.phase.ClaimsOpen?
    ensures var o := CloseClaimsInternal(s);
            && o.Done?
            && Paid(s, o.state, s.accounting.fundedAmount - s.totalClaimAmount + TotalFrom(s.claims, 0, WaivedPart),
                    TotalFrom(s.claims, 0, AcceptedPart))
            && SameFrame(s.(claimsClosed := true), o.state) && LogKept(s, o.state)
            && o.state.claims == SettledFrom(s.claims, 0) && o.state.proposal == NO_PROPOSAL
            && o.state.phase == if TotalFrom(s.claims, 0, PendingPart) + TotalFrom(s.claims, 0, DisputedPart) == 0
                                then Phase.Allocated else Phase.ClaimsReview
  {
    hide AllocateCredit, SettleFrom, LogAgrees, Folded, Inv, SettledFrom, TotalFrom;
    BeforeClosing(s);
    var s1 := InvalidateSettlement(s).(claimsClosed := true);
    var unclaimed := s.accounting.fundedAmount - s.totalClaimAmount;
    RevisionUnlogged(s.log, s.terms.tenant, s.accounting, s1.accounting.revision);
    CreditForm(s1, s.terms.tenant, unclaimed, Unclaimed);
    var s2 := AllocateCredit(s1, s.terms.tenant, unclaimed, Unclaimed).state;
    SettleFromForm(s2, 0, 0, 0, unclaimed);
  }

  lemma BeforeClosing(s: State)
    requires Inv(s) && s.phase.ClaimsOpen?
    ensures s.terms.tenant != s.terms.landlord && !s.claimsClosed && NoneAllocated(s.claims, 0)
    ensures s.totalClaimAmount <= s.accounting.fundedAmount == s.accounting.unallocated
    ensures s.totalClaimAmount == TotalFrom(s.claims, 0, PendingPart) + TotalFrom(s.claims, 0, AcceptedPart)
                                  + TotalFrom(s.claims, 0, DisputedPart) + TotalFrom(s.claims, 0, WaivedPart)
    ensures s.proposal.proposalId == 0 ==> s.proposal == NO_PROPOSAL
  {
    hide TotalFrom, CaseOk, ScheduleOk, ClaimOk;
    TotalSplit(s.claims, 0);
  }

  /** Before any claim is allocated, the amounts split by status. */
  lemma {:induction false} TotalSplit(cs: seq<Claim>, i: nat)
    requires NoneAllocated(cs, i)
    ensures TotalFrom(cs, i, AmountPart) == TotalFrom(cs, i, PendingPart) + TotalFrom(cs, i, AcceptedPart)
                                            + TotalFrom(cs, i, DisputedPart) + TotalFrom(cs, i, WaivedPart)
    decreases |cs| - i
  {
    if i < |cs| { TotalSplit(cs, i + 1); }
  }

  /** The settled table is well formed, and disputes what was pending or disputed. */
  lemma {:induction false} SettledTotals(cs: seq<Claim>, i: nat)
    requires NoneAllocated(cs, 0)
    ensures var r := SettledFrom(cs, 0);
            && TotalFrom(r, i, AmountPart) == TotalFrom(cs, i, AmountPart)
            && TotalFrom(r, i, DisputedPart) == TotalFrom(cs, i, PendingPart) + TotalFrom(cs, i, DisputedPart)
    decreases |cs| - i
  {
    if i < |cs| { SettledTotals(cs, i + 1); }
  }

  lemma SettledOk(cs: seq<Claim>, submitted: bool, total: nat, funded: nat)
    requires NoneAllocated(cs, 0) && ClaimsOk(cs, submitted, total, funded)
    ensures ClaimsOk(SettledFrom(cs, 0), submitted, total, funded)
    ensures |SettledFrom(cs, 0)| == |cs|
    ensures forall i :: 0 <= i < |cs| ==>
      SettledFrom(cs, 0)[i].status.Disputed? || SettledFrom(cs, 0)[i].status.Allocated?
  {
    hide TotalFrom;
    SettledTotals(cs, 0);
  }

  lemma CloseKeeps(s: State)
    requires Inv(s) && s.phase.ClaimsOpen?
    ensures CloseClaimsInternal(s).Done? && Inv(CloseClaimsInternal(s).state)
    ensures CloseClaimsInternal(s).state.claimsClosed
    ensures var t := CloseClaimsInternal(s).state; t.phase.ClaimsReview? || t.phase.Allocated?
  {
    hide CloseClaimsInternal, LogKept, CaseOk, ScheduleOk, TotalFrom, SettledFrom;
    CloseForm(s);
    SettledTotals(s.claims, 0);
    SettledOk(s.claims, s.claimsSubmitted, s.totalClaimAmount, s.accounting.fundedAmount);
    TotalSplit(s.claims, 0);
    assert s.totalClaimAmount == TotalFrom(s.claims, 0, AmountPart);
    hide ClaimsOk;
  }

  /** A decision vector in lockstep applies in full: the disputed balance is paid out, by award. */
  lemma ApplyForm(s: State)
    requires Base(s) && InReview(s) && ValidDecision(s.claims, s.decisions)
    requires s.activeCase.disputedAmount == s.accounting.unallocated
    ensures AwardsFrom(s.decisions, 0) <= s.accounting.unallocated
    ensures var o := ApplyDecision(s);
            && o.Done? && SameFrame(s, o.state) && LogKept(s, o.state) && o.state.phase == s.phase
            && Paid(s, o.state, s.accounting.unallocated - AwardsFrom(s.decisions, 0), AwardsFrom(s.decisions, 0))
            && LockstepFrom(s.decisions, 0, s.claims, 0)
            && o.state.claims == AwardedFrom(s.claims, 0, s.decisions, 0)
            && o.state.proposal == NO_PROPOSAL
  {
    hide ApplyFrom, TotalFrom, AwardsFrom, DisputedFrom, Lockstep, LogKept, CaseOk, ScheduleOk, ClaimOk;
    assert s.decisions[0..] == s.decisions;
    ApplyFromForm(s, s.decisions, 0, 0, 0);
  }

  lemma AwardedOk(cs: seq<Claim>, ds: seq<DecisionInput>, submitted: bool, total: nat, funded: nat)
    requires LockstepFrom(ds, 0, cs, 0) && ClaimsOk(cs, submitted, total, funded)
    ensures ClaimsOk(AwardedFrom(cs, 0, ds, 0), submitted, total, funded)
  {
    var r := AwardedFrom(cs, 0, ds, 0);
    AwardedAt(cs, 0, ds, 0);
    TotalAgree(r, cs, 0, AmountPart);
    hide TotalFrom, AwardedFrom, LockstepFrom;
  }

  /** Once a decision has been applied, the lease is allocated. */
  lemma ApplyKeeps(s: State, c: ActiveCase, ds: seq<DecisionInput>)
    requires Base(s) && InReview(s) && ValidDecision(s.claims, s.decisions)
    requires s.activeCase.disputedAmount == s.accounting.unallocated
    requires CaseOk(c, s.caseNonce, s.terms, s.schedule) && CaseDone(c)
    ensures ApplyDecision(s).Done?
    ensures Inv(ApplyDecision(s).state.(activeCase := c, phase := Phase.Allocated, decisions := ds))
  {
    hide ApplyDecision, ClaimsOk, AwardedFrom, TotalFrom, LockstepFrom, CaseOk, LogKept, ValidDecision, ScheduleOk;
    ApplyForm(s);
    AwardedOk(s.claims, s.decisions, s.claimsSubmitted, s.totalClaimAmount, s.accounting.fundedAmount);
  }

  /** Finishing a checkout case, approved or not, leads on: to the claims, or back to the lease. */
  lemma FinishCheckoutKeeps(s: State, now: nat, approved: bool)
    requires s.activeCase.exists_ && s.activeCase.caseType.Checkout? && PreClaims(s)
    requires Base(s.(activeCase := s.activeCase.(phase := CasePhase.Finalized)))
    ensures FinishCheckoutCase(s, now, approved).Done? && Inv(FinishCheckoutCase(s, now, approved).state)
    ensures var p := FinishCheckoutCase(s, now, approved).state.phase;
            if approved || now >= s.terms.leaseEndAt then p.ClaimsOpen? else p.Active?
  {
    hide StartClaims, Folded, TotalFrom;
    var s2 := ResolveCheckout(s, approved);
    ResolvedBase(s, approved);
    hide ClaimsOk, CaseOk, ScheduleOk, ProposalOk;
    StartClaimsOpens(s2, Min(now, s.terms.leaseEndAt));
    StartClaimsOpens(s2, s.terms.leaseEndAt);
  }

  lemma ResolvedBase(s: State, approved: bool)
    requires s.activeCase.exists_ && s.activeCase.caseType.Checkout? && PreClaims(s)
    requires Base(s.(activeCase := s.activeCase.(phase := CasePhase.Finalized)))
    ensures Base(ResolveCheckout(s, approved)) && PreClaims(ResolveCheckout(s, approved))
    ensures NoClaimsCase(ResolveCheckout(s, approved).activeCase)
    ensures !CheckoutOpen(ResolveCheckout(s, approved).checkout)
  {
    hide TotalFrom, Folded, ClaimsOk, ScheduleOk;
  }

  /** Dropping an unfinished checkout leaves the lease ready for its claims. */
  lemma InvalidateCheckoutForm(s: State)
    requires Inv(s) && (s.phase.Active? || s.phase.CheckoutRequested? || s.phase.CheckoutCase?)
    ensures var t := InvalidateCheckoutCase(s);
            Base(t) && PreClaims(t) && NoClaimsCase(t.activeCase) && t.terms == s.terms
            && t.accounting == s.accounting && t.claims == s.claims
  {
  }

  // ---------- external functions ----------

  lemma AcceptTermsKeeps(s: State, sender: Address, now: nat, h: Hash)
    requires Inv(s) && AcceptTerms(s, sender, now, h).Done?
    ensures Inv(AcceptTerms(s, sender, now, h).state)
  {
  }

  lemma CancelUnfundedKeeps(s: State, sender: Address)
    requires Inv(s) && CancelUnfunded(s, sender).Done?
    ensures Inv(CancelUnfunded(s, sender).state)
  {
  }

  lemma ExpireUnfundedKeeps(s: State, sender: Address, now: nat)
    requires Inv(s) && ExpireUnfunded(s, sender, now).Done?
    ensures Inv(ExpireUnfunded(s, sender, now).state)
  {
  }

  lemma FundKeeps(s: State, sender: Address, now: nat, amount: nat, registry: RegistryAnswer, token: TokenAnswer)
    requires Inv(s) && Fund(s, sender, now, amount, registry, token).Done?
    ensures Inv(Fund(s, sender, now, amount, registry, token).state)
  {
  }

  lemma RequestCheckoutKeeps(s: State, sender: Address, now: nat, h: Hash)
    requires Inv(s) && RequestCheckout(s, sender, now, h).Done?
    ensures Inv(RequestCheckout(s, sender, now, h).state)
  {
  }

  lemma RespondCheckoutKeeps(s: State, sender: Address, now: nat, agree: bool, h: Hash)
    requires Inv(s) && RespondCheckout(s, sender, now, agree, h).Done?
    ensures Inv(RespondCheckout(s, sender, now, agree, h).state)
  {
    hide TotalFrom, ClaimsOk, Folded, Absorb;
  }

  lemma OpenCheckoutCaseKeeps(s: State, now: nat)
    requires Inv(s) && OpenCheckoutCase(s, now).Done?
    ensures Inv(OpenCheckoutCase(s, now).state)
  {
  }

  lemma StartScheduledSettlementKeeps(s: State, now: nat)
    requires Inv(s) && StartScheduledSettlement(s, now).Done?
    ensures Inv(StartScheduledSettlement(s, now).state)
  {
    hide StartClaims, InvalidateCheckoutCase, Inv, Base;
    if !s.schedule.started {
      var s1 := InvalidateSettlement(s);
      InvalidateKeeps(s);
      InvalidateCheckoutForm(s1);
      StartClaimsOpens(InvalidateCheckoutCase(s1), s.terms.leaseEndAt);
    }
  }

  lemma {:induction false} InputsChecked(inputs: seq<ClaimInput>, i: nat, total: nat, funded: nat)
    requires CheckInputs(inputs, i, total, funded).Pass? && total <= funded
    ensures total + InputTotal(inputs, i) <= funded
    ensures forall j :: i <= j < |inputs| ==> IsBusinessAmount(inputs[j].amount, false)
    decreases |inputs| - i
  {
    if i < |inputs| { InputsChecked(inputs, i + 1, total + inputs[i].amount, funded); }
  }

  lemma {:induction false} NewClaimsTotal(inputs: seq<ClaimInput>, i: nat)
    ensures TotalFrom(NewClaims(inputs), i, AmountPart) == InputTotal(inputs, i)
    decreases |inputs| - i
  {
    if i < |inputs| { NewClaimsTotal(inputs, i + 1); }
  }

  lemma SubmitClaimsKeeps(s: State, sender: Address, now: nat, inputs: seq<ClaimInput>)
    requires Inv(s) && SubmitClaims(s, sender, now, inputs).Done?
    ensures Inv(SubmitClaims(s, sender, now, inputs).state)
  {
    hide TotalFrom, CheckInputs, InputTotal, Folded, CaseOk, ScheduleOk;
    InputsChecked(inputs, 0, 0, s.accounting.fundedAmount);
    NewClaimsTotal(inputs, 0);
    assert s.claims + NewClaims(inputs) == NewClaims(inputs);
  }

  /** Changing a claim's status without allocating it keeps the table well formed. */
  lemma RestatusOk(cs: seq<Claim>, k: nat, c: Claim, submitted: bool, total: nat, funded: nat)
    requires ClaimsOk(cs, submitted, total, funded) && k < |cs| && !cs[k].status.Allocated?
    requires c.id == cs[k].id && c.amount == cs[k].amount && ClaimOk(c)
    ensures ClaimsOk(cs[k := c], submitted, total, funded)
  {
    TotalUpdate(cs, 0, k, c, AmountPart);
    hide TotalFrom;
  }

  /** Without a disputed claim nothing is left in review. */
  lemma NoOpenClaim(cs: seq<Claim>)
    requires TotalFrom(cs, 0, DisputedPart) > 0
    ensures exists i :: 0 <= i < |cs| && IsOpen(cs[i])
  {
    TotalZero(cs, 0, DisputedPart);
  }

  lemma RespondClaimKeeps(s: State, sender: Address, now: nat, claimId: nat, accept: bool, h: Hash)
    requires Inv(s) && RespondClaim(s, sender, now, claimId, accept, h).Done?
    ensures Inv(RespondClaim(s, sender, now, claimId, accept, h).state)
  {
    var k := claimId - 1;
    var c := s.claims[k].(status := if accept then ClaimStatus.Accepted else ClaimStatus.Disputed,
                          responseCommitment := h);
    if s.claimsClosed {
      if accept { TakeOutKeeps(s, k, c, ToLandlord(c)); } else { DisputeAgainKeeps(s, k, c); }
    } else {
      RestatusKeeps(s, k, c);
    }
    hide Inv, AllocateCredit, RefreshAllocationPhase, InvalidateSettlement, Folded, Absorb;
    EmitKeeps(RefreshAllocationPhase(
      if s.claimsClosed && accept then AllocateClaimToLandlord(s.(claims := s.claims[k := c]), k).state
      else InvalidateSettlement(s.(claims := s.claims[k := c]))), ClaimResponded(claimId, accept, h));
  }

  lemma EmitKeeps(s: State, e: Event)
    requires Inv(s)
    ensures Inv(Emit(s, e))
  {
    hide TotalFrom, Folded, Absorb, ClaimsOk, ScheduleOk, CaseOk, ProposalOk;
  }

  /** Before closing, answering or waiving a claim only changes its status. */
  lemma RestatusKeeps(s: State, k: nat, c: Claim)
    requires Inv(s) && s.phase.ClaimsOpen? && k < |s.claims| && !c.status.Allocated?
    requires c.id == s.claims[k].id && c.amount == s.claims[k].amount && ClaimOk(c)
    ensures Inv(RefreshAllocationPhase(InvalidateSettlement(s.(claims := s.claims[k := c]))))
  {
    RestatusOk(s.claims, k, c, s.claimsSubmitted, s.totalClaimAmount, s.accounting.fundedAmount);
    hide TotalFrom, ClaimsOk, ScheduleOk, CaseOk;
  }

  /** In review, disputing again changes no amount. */
  lemma DisputeAgainKeeps(s: State, k: nat, c: Claim)
    requires Inv(s) && s.phase.ClaimsReview? && k < |s.claims| && s.claims[k].status.Disputed?
    requires c.id == s.claims[k].id && c.amount == s.claims[k].amount && ClaimOk(c) && c.status.Disputed?
    ensures Inv(RefreshAllocationPhase(InvalidateSettlement(s.(claims := s.claims[k := c]))))
  {
    RestatusOk(s.claims, k, c, s.claimsSubmitted, s.totalClaimAmount, s.accounting.fundedAmount);
    TotalUpdate(s.claims, 0, k, c, DisputedPart);
    NoOpenClaim(s.claims[k := c]);
    hide TotalFrom, ClaimsOk, ScheduleOk, CaseOk, IsOpen;
  }

  /** Once a claim has left review and been paid out, the lease is in review still, or allocated. */
  lemma TakenOutKeeps(s: State, k: nat, out: Claim, t: State, toTenant: nat, toLandlord: nat)
    requires Inv(s) && s.phase.ClaimsReview? && k < |s.claims| && s.claims[k].status.Disputed?
    requires out.status.Allocated? && out.id == s.claims[k].id && out.amount == s.claims[k].amount && ClaimOk(out)
    requires SameFrame(s, t) && t.phase == s.phase && t.claims == s.claims[k := out]
    requires Paid(s, t, toTenant, toLandlord) && toTenant + toLandlord == out.amount
    requires t.proposal == NO_PROPOSAL
    ensures Inv(RefreshAllocationPhase(t))
  {
    ReviewedOut(s, k, out, out);
    hide ClaimsOk, TotalFrom, CaseOk, ScheduleOk, IsOpen;
  }

  lemma InReviewHas(s: State, k: nat)
    requires Inv(s) && s.phase.ClaimsReview? && k < |s.claims|
    ensures InReview(s) && s.terms.tenant != s.terms.landlord && IsBusinessAmount(s.claims[k].amount, false)
    ensures s.proposal.proposalId == 0 ==> s.proposal == NO_PROPOSAL
  {
    hide TotalFrom, CaseOk, ScheduleOk;
  }

  /** In review, accepting or waiving a claim pays it out; the last one leaves the lease allocated. */
  lemma TakeOutKeeps(s: State, k: nat, mid: Claim, out: Claim)
    requires Inv(s) && s.phase.ClaimsReview? && k < |s.claims| && s.claims[k].status.Disputed?
    requires mid.id == s.claims[k].id && mid.amount == s.claims[k].amount
    requires mid.landlordAllocated == 0 && mid.tenantAllocated == 0
    requires (mid.status.Accepted? && out == ToLandlord(mid)) || (mid.status.Waived? && out == ToTenant(mid))
    ensures var s1 := s.(claims := s.claims[k := mid]);
            var o := if mid.status.Accepted? then AllocateClaimToLandlord(s1, k) else AllocateClaimToTenant(s1, k);
            o.Done? && Inv(RefreshAllocationPhase(o.state))
  {
    hide Inv, AllocateCredit, ClaimsOk, TotalFrom, LogKept, RefreshAllocationPhase, InReview;
    InReviewHas(s, k);
    ReviewedOut(s, k, mid, out);
    var s1 := s.(claims := s.claims[k := mid]);
    if mid.status.Accepted? {
      CreditForm(s1, s.terms.landlord, mid.amount, AcceptedClaim);
      TakenOutKeeps(s, k, out, AllocateClaimToLandlord(s1, k).state, 0, mid.amount);
    } else {
      CreditForm(s1, s.terms.tenant, mid.amount, WaivedClaim);
      TakenOutKeeps(s, k, out, AllocateClaimToTenant(s1, k).state, mid.amount, 0);
    }
  }

  /** Taking a disputed claim out of review reduces the disputed total by its amount. */
  lemma ReviewedOut(s: State, k: nat, mid: Claim, out: Claim)
    requires Inv(s) && InReview(s) && k < |s.claims| && s.claims[k].status.Disputed?
    requires out.status.Allocated? && out.id == s.claims[k].id && out.amount == s.claims[k].amount && ClaimOk(out)
    requires mid.amount == s.claims[k].amount
    ensures var cs := s.claims[k := mid][k := out];
            && cs == s.claims[k := out]
            && ClaimsOk(cs, s.claimsSubmitted, s.totalClaimAmount, s.accounting.fundedAmount)
            && TotalFrom(cs, 0, DisputedPart) + out.amount == s.accounting.unallocated
            && (TotalFrom(cs, 0, DisputedPart) > 0 ==> exists i :: 0 <= i < |cs| && IsOpen(cs[i]))
  {
    var cs := s.claims[k := out];
    assert s.claims[k := mid][k := out] == cs;
    RestatusOk(s.claims, k, out, s.claimsSubmitted, s.totalClaimAmount, s.accounting.fundedAmount);
    TotalUpdate(s.claims, 0, k, out, DisputedPart);
    if TotalFrom(cs, 0, DisputedPart) > 0 { NoOpenClaim(cs); }
    hide TotalFrom, ClaimsOk;
  }

  lemma WaiveClaimKeeps(s: State, sender: Address, now: nat, claimId: nat)
    requires Inv(s) && WaiveClaim(s, sender, now, claimId).Done?
    ensures Inv(WaiveClaim(s, sender, now, claimId).state)
  {
    var k := claimId - 1;
    var c := s.claims[k].(status := ClaimStatus.Waived);
    if s.claimsClosed { TakeOutKeeps(s, k, c, ToTenant(c)); } else { RestatusKeeps(s, k, c); }
    hide Inv, AllocateCredit, RefreshAllocationPhase, InvalidateSettlement, Folded, Absorb;
    EmitKeeps(RefreshAllocationPhase(
      if s.claimsClosed then AllocateClaimToTenant(s.(claims := s.claims[k := c]), k).state
      else InvalidateSettlement(s.(claims := s.claims[k := c]))), ClaimWaived(claimId));
  }

  lemma CloseClaimsKeeps(s: State, now: nat)
    requires Inv(s) && CloseClaims(s, now).Done?
    ensures Inv(CloseClaims(s, now).state)
  {
    if !s.claimsClosed { CloseKeeps(s); }
    hide CloseClaimsInternal;
  }

  /** In review every open claim is already disputed. */
  lemma ContestNothing(s: State)
    requires InReview(s)
    ensures ContestAll(s.claims) == s.claims
  {
  }

  lemma OpenClaimCaseKeeps(s: State, now: nat)
    requires Inv(s) && OpenClaimCase(s, now).Done?
    ensures Inv(OpenClaimCase(s, now).state)
  {
    hide TotalFrom, ContestAll, Folded, Absorb;
    ContestNothing(s);
  }

  lemma ProposeDecisionKeeps(s: State, sender: Address, now: nat, caseId: nat, result: seq<DecisionInput>, h: Hash)
    requires Inv(s) && ProposeDecision(s, sender, now, caseId, result, h).Done?
    ensures Inv(ProposeDecision(s, sender, now, caseId, result, h).state)
  {
    hide TotalFrom, ClaimsOk, ValidDecision, Folded, Absorb;
  }

  lemma ProposeCheckoutDecisionKeeps(s: State, sender: Address, now: nat, caseId: nat, approved: bool, h: Hash)
    requires Inv(s) && ProposeCheckoutDecision(s, sender, now, caseId, approved, h).Done?
    ensures Inv(ProposeCheckoutDecision(s, sender, now, caseId, approved, h).state)
  {
  }

  lemma ChallengeKeeps(s: State, sender: Address, now: nat, caseId: nat, h: Hash)
    requires Inv(s) && Challenge(s, sender, now, caseId, h).Done?
    ensures Inv(Challenge(s, sender, now, caseId, h).state)
  {
    hide TotalFrom, ClaimsOk, ValidDecision, Folded;
  }

  lemma EscalateTimeoutKeeps(s: State, sender: Address, now: nat, caseId: nat)
    requires Inv(s) && EscalateTimeout(s, sender, now, caseId).Done?
    ensures Inv(EscalateTimeout(s, sender, now, caseId).state)
  {
    hide TotalFrom, ClaimsOk, ValidDecision, Folded, Absorb;
  }

  /** The pending decision of a live case can always be applied. */
  lemma ApplyActiveKeeps(s: State, now: nat)
    requires Inv(s) && s.activeCase.exists_ && s.activeCase.phase.Proposed?
    ensures ApplyActiveDecision(s, now).Done? && Inv(ApplyActiveDecision(s, now).state)
  {
    if s.activeCase.caseType.Claims? {
      ApplyKeeps(s, s.activeCase.(phase := CasePhase.Finalized), s.decisions);
      ApplyForm(s);
    } else {
      FinishCheckoutKeeps(s, now, s.activeCase.checkoutApproved);
    }
    hide ApplyDecision, FinishCheckoutCase, Inv;
  }

  lemma FinalizePrimaryKeeps(s: State, now: nat, caseId: nat)
    requires Inv(s) && FinalizePrimary(s, now, caseId).Done?
    ensures Inv(FinalizePrimary(s, now, caseId).state)
  {
    if s.activeCase.phase.Proposed? {
      ApplyActiveKeeps(s, now);
      EmitKeeps(ApplyActiveDecision(s, now).state, DecisionFinalized(caseId, s.activeCase.decisionHash));
    }
    hide ApplyActiveDecision, Inv, Folded, Absorb;
  }

  lemma FinalizeTimeoutKeeps(s: State, now: nat, caseId: nat)
    requires Inv(s) && FinalizeTimeout(s, now, caseId).Done?
    ensures Inv(FinalizeTimeout(s, now, caseId).state)
  {
    hide AllocateCredit, TotalFrom, ClaimsOk, ScheduleOk, Folded, LogKept, ValidDecision;
    CreditForm(s, s.terms.tenant, s.accounting.unallocated, Timeout);
  }

  /** When a claims case times out, its exit notice still ends by the hard end. */
  lemma MarkClaimCaseKeeps(s: State, now: nat, caseId: nat)
    requires Inv(s) && s.phase.ClaimCase? && s.activeCase.phase.Fallback?
    requires s.activeCase.caseId == caseId && now >= s.activeCase.fallbackDeadline
    ensures MarkServiceTimeout(s, now, caseId).Done? && Inv(MarkServiceTimeout(s, now, caseId).state)
    ensures MarkServiceTimeout(s, now, caseId).state.phase.ExitPending?
  {
    hide TotalFrom, ClaimsOk, Folded, Absorb, FinishCheckoutCase, ValidDecision;
  }

  lemma MarkCheckoutCaseKeeps(s: State, now: nat, caseId: nat)
    requires Inv(s) && s.phase.CheckoutCase? && s.activeCase.phase.Fallback?
    requires s.activeCase.caseId == caseId && now >= s.activeCase.fallbackDeadline
    ensures MarkServiceTimeout(s, now, caseId).Done? && Inv(MarkServiceTimeout(s, now, caseId).state)
    ensures var p := MarkServiceTimeout(s, now, caseId).state.phase;
            if now >= s.terms.leaseEndAt then p.ClaimsOpen? else p.Active?
  {
    hide FinishCheckoutCase, Folded, TotalFrom, ClaimsOk, ScheduleOk, ProposalOk, ValidDecision;
    var at := s.activeCase.fallbackDeadline;
    FinishCheckoutKeeps(Emit(s.(activeCase := s.activeCase.(timeoutAt := at)), ServiceTimedOut(caseId, at)),
                        now, false);
  }

  lemma MarkServiceTimeoutKeeps(s: State, now: nat, caseId: nat)
    requires Inv(s) && MarkServiceTimeout(s, now, caseId).Done?
    ensures Inv(MarkServiceTimeout(s, now, caseId).state)
  {
    hide FinishCheckoutCase, Folded, TotalFrom, ClaimsOk, ScheduleOk, ProposalOk, ValidDecision;
    if s.activeCase.phase.Fallback? {
      if s.activeCase.caseType.Checkout? { MarkCheckoutCaseKeeps(s, now, caseId); }
      else { MarkClaimCaseKeeps(s, now, caseId); }
    }
  }

  /** A decision applied outright, as the fallback resolver does. */
  lemma ResolveKeeps(s: State, result: seq<DecisionInput>, h: Hash, digest: Digest, e: Event)
    requires Inv(s) && s.phase.ClaimCase? && s.activeCase.phase.Fallback? && ValidDecision(s.claims, result)
    ensures ApplyDecision(s.(decisions := result)).Done?
    ensures var t := ApplyDecision(s.(decisions := result)).state;
            var c := t.activeCase.(proposalHash := h, decisionHash := digest, phase := CasePhase.Finalized);
            Inv(Emit(InvalidateSettlement(t.(activeCase := c, phase := Phase.Allocated)), e))
  {
    var s1 := s.(decisions := result);
    var c := s.activeCase.(proposalHash := h, decisionHash := digest, phase := CasePhase.Finalized);
    ApplyForm(s1);
    ApplyKeeps(s1, c, result);
    var t := ApplyDecision(s1).state.(activeCase := c, phase := Phase.Allocated);
    assert t == t.(decisions := result);
    hide Inv, ApplyDecision, InvalidateSettlement, ValidDecision, Folded, Absorb, Base;
    InvalidateKeeps(t);
    EmitKeeps(InvalidateSettlement(t), e);
  }

  lemma ResolveFallbackKeeps(s: State, sender: Address, now: nat, caseId: nat, result: seq<DecisionInput>, h: Hash)
    requires Inv(s) && ResolveFallback(s, sender, now, caseId, result, h).Done?
    ensures Inv(ResolveFallback(s, sender, now, caseId, result, h).state)
  {
    hide TotalFrom, ValidDecision, ApplyDecision, ClaimsOk, Folded, Absorb;
    var digest := ClaimsDigest(caseId, h, result);
    ResolveKeeps(s, result, h, digest, DecisionFinalized(caseId, digest));
    hide Inv, InvalidateSettlement;
  }

  lemma InvalidateKeeps(s: State)
    requires Inv(s)
    ensures Inv(InvalidateSettlement(s))
  {
    hide TotalFrom, ClaimsOk, ScheduleOk, CaseOk, ValidDecision;
  }

  lemma ResolveFallbackCheckoutKeeps(s: State, sender: Address, now: nat, caseId: nat, approved: bool, h: Hash)
    requires Inv(s) && ResolveFallbackCheckout(s, sender, now, caseId, approved, h).Done?
    ensures Inv(ResolveFallbackCheckout(s, sender, now, caseId, approved, h).state)
  {
    hide TotalFrom, FinishCheckoutCase, ClaimsOk, Folded, Absorb;
    var digest := CheckoutDigest(caseId, approved, h);
    var s1 := s.(activeCase := s.activeCase.(proposalHash := h, decisionHash := digest, checkoutApproved := approved));
    FinishCheckoutKeeps(s1, now, approved);
    hide Inv, Base;
    EmitKeeps(FinishCheckoutCase(s1, now, approved).state, DecisionFinalized(caseId, digest));
  }

  /** In a funded lease the unallocated funds are gone exactly when it is allocated or closed. */
  lemma UnallocatedExactly(s: State)
    requires Inv(s) && s.accounting.fundedAmount > 0
    ensures s.accounting.unallocated == 0 <==> s.phase.Allocated? || s.phase.Closed?
  {
    hide TotalFrom, ClaimsOk, ScheduleOk, CaseOk, ValidDecision;
  }

  predicate Underway(s: State) {
    s.phase.ClaimsOpen? || s.phase.ClaimsReview? || s.phase.ClaimCase? || s.phase.ExitPending?
  }

  lemma OpenForExpiryForm(s: State)
    requires Inv(s) && s.accounting.unallocated > 0
    ensures var o := OpenForExpiry(s);
            && o.Done? && Inv(o.state) && Underway(o.state)
            && o.state.terms == s.terms && o.state.accounting == s.accounting
            && (s.schedule.started ==> o.state == s)
            && (!s.schedule.started ==> s.claims == [] && o.state.claims == [] && o.state.phase.ClaimsOpen?)
  {
    if !s.schedule.started {
      InvalidateCheckoutForm(s);
      StartClaimsOpens(InvalidateCheckoutCase(s), s.terms.leaseEndAt);
    }
    hide InvalidateCheckoutCase, TotalFrom, ClaimsOk, ValidDecision, CaseOk, Folded, Absorb;
  }

  /** Past the hard end every pending claims decision is unchallenged, and gets applied. */
  lemma AwardUnchallengedForm(s: State, now: nat)
    requires Inv(s) && now >= s.terms.hardEndAt && s.claimsClosed && (Underway(s) || s.phase.Allocated?)
    ensures var o := AwardUnchallenged(s, now);
            && o.Done? && Base(o.state) && o.state.terms == s.terms
            && o.state.accounting.fundedAmount == s.accounting.fundedAmount
            && (UnchallengedProposal(s, now) <==> s.phase.ClaimCase? && s.activeCase.phase.Proposed?)
            && (UnchallengedProposal(s, now) ==>
                  && o.state.accounting.unallocated == 0
                  && o.state.accounting.tenantCredit + o.state.accounting.landlordCredit > 0)
            && (!UnchallengedProposal(s, now) ==> o.state == s)
  {
    if UnchallengedProposal(s, now) {
      ApplyForm(s);
      ApplyKeeps(s, s.activeCase.(phase := CasePhase.Finalized), s.decisions);
    }
    hide ApplyDecision, TotalFrom, ClaimsOk, ValidDecision, Folded, Absorb, LogKept;
  }

  lemma RestToTenantKeeps(s: State)
    requires Base(s) && s.accounting.fundedAmount > 0
    requires s.accounting.unallocated == 0 ==> s.accounting.tenantCredit + s.accounting.landlordCredit > 0
    ensures RestToTenant(s).Done? && Inv(RestToTenant(s).state)
    ensures RestToTenant(s).state.phase.Allocated?
  {
    hide AllocateCredit, TotalFrom, ClaimsOk, ScheduleOk, LogKept, Folded, Absorb;
    CreditForm(s, s.terms.tenant, s.accounting.unallocated, HardEnd);
    var t := AllocateCredit(s, s.terms.tenant, s.accounting.unallocated, HardEnd).state;
    RestPaidKeeps(s, t);
    hide Inv;
    EmitKeeps(Conclude(t).(proposal := NO_PROPOSAL), EscrowExpired(s.accounting.unallocated));
  }

  lemma RestPaidKeeps(s: State, t: State)
    requires Base(s) && s.accounting.fundedAmount > 0
    requires s.accounting.unallocated == 0 ==> s.accounting.tenantCredit + s.accounting.landlordCredit > 0
    requires SameFrame(s, t) && t.claims == s.claims && Paid(s, t, s.accounting.unallocated, 0)
    ensures Inv(Conclude(t).(proposal := NO_PROPOSAL))
  {
    hide TotalFrom, ClaimsOk, ScheduleOk;
  }

  lemma CloseStage(s: State)
    requires Inv(s) && Underway(s)
    ensures CloseClaimsInternal(s).Done?
    ensures var t := CloseClaimsInternal(s).state;
      && Inv(t) && t.claimsClosed && (Underway(t) || t.phase.Allocated?) && t.terms == s.terms
      && t.accounting.fundedAmount == s.accounting.fundedAmount > 0
  {
    if s.phase.ClaimsOpen? { CloseKeeps(s); CloseForm(s); }
    hide TotalFrom, ClaimsOk, ValidDecision, CaseOk, ScheduleOk, ProposalOk, LogKept;
    if !s.phase.ClaimsOpen? { assert CloseClaimsInternal(s).state == s; }
    hide CloseClaimsInternal;
  }

  /** From the hard end on, expiry cannot revert, and leaves everything allocated. */
  lemma ExpireEscrowForm(s: State, now: nat)
    requires Inv(s) && s.accounting.unallocated > 0 && now >= s.terms.hardEndAt
    ensures ExpireEscrow(s, now).Done? && Inv(ExpireEscrow(s, now).state)
    ensures ExpireEscrow(s, now).state.phase.Allocated?
  {
    hide OpenForExpiry, CloseClaimsInternal, AwardUnchallenged, RestToTenant, Inv, Base, UnchallengedProposal;
    hide SettleAtExpiry;
    UnallocatedFunded(s);
    OpenForExpiryForm(s);
    var s1 := OpenForExpiry(s).state;
    CloseStage(s1);
    var s2 := CloseClaimsInternal(s1).state;
    UnallocatedExactly(s2);
    AwardUnchallengedForm(s2, now);
    CreditLeft(s2);
    RestToTenantKeeps(AwardUnchallenged(s2, now).state);
    StagesSettle(s, now, s1, s2, AwardUnchallenged(s2, now).state);
  }

  /** When the first three stages succeed, expiry comes down to the last. */
  lemma StagesSettle(s: State, now: nat, s1: State, s2: State, s3: State)
    requires OpenForExpiry(s) == Done(s1) && CloseClaimsInternal(s1) == Done(s2)
    requires AwardUnchallenged(s2, now) == Done(s3)
    ensures SettleAtExpiry(s, now) == RestToTenant(s3)
  {
    hide OpenForExpiry, CloseClaimsInternal, AwardUnchallenged, RestToTenant;
  }

  lemma UnallocatedFunded(s: State)
    requires Inv(s) && s.accounting.unallocated > 0
    ensures s.accounting.fundedAmount > 0 && !s.phase.Allocated? && !s.phase.Closed?
  {
    hide TotalFrom, ClaimsOk, ScheduleOk, CaseOk, ValidDecision;
  }

  lemma CreditLeft(s: State)
    requires Inv(s)
    ensures s.phase.Allocated? ==> s.accounting.tenantCredit + s.accounting.landlordCredit > 0
  {
    hide TotalFrom, ClaimsOk, ScheduleOk, CaseOk, ValidDecision, ProposalOk;
  }

  lemma ExpireEscrowKeeps(s: State, now: nat)
    requires Inv(s) && ExpireEscrow(s, now).Done?
    ensures Inv(ExpireEscrow(s, now).state)
  {
    hide SettleAtExpiry, Inv;
    if s.accounting.unallocated > 0 { ExpireEscrowForm(s, now); } else { UnallocatedExactly(s); }
  }

  lemma ProposeSettlementKeeps(s: State, sender: Address, now: nat, tenantShare: nat, landlordShare: nat,
                               revision: nat, validUntil: nat, h: Hash)
    requires Inv(s)
    requires ProposeSettlement(s, sender, now, tenantShare, landlordShare, revision, validUntil, h).Done?
    ensures Inv(ProposeSettlement(s, sender, now, tenantShare, landlordShare, revision, validUntil, h).state)
  {
    hide TotalFrom, ClaimsOk, CaseOk, ScheduleOk, ValidDecision, Folded, Absorb;
  }

  /** What a confirmed settlement pays. */
  lemma SharesForm(s: State, tenantShare: nat, landlordShare: nat)
    requires s.terms.tenant != s.terms.landlord && s.proposal == NO_PROPOSAL
    requires tenantShare + landlordShare <= s.accounting.unallocated
    ensures var o := PayShares(s, tenantShare, landlordShare);
            && o.Done? && SameFrame(s, o.state) && LogKept(s, o.state) && o.state.phase == s.phase
            && o.state.claims == s.claims && o.state.proposal == NO_PROPOSAL
            && Paid(s, o.state, tenantShare, landlordShare)
  {
    hide AllocateCredit, LogAgrees, Folded, Absorb;
    CreditForm(s, s.terms.tenant, tenantShare, SettlementTenant);
    var s1 := AllocateCredit(s, s.terms.tenant, tenantShare, SettlementTenant).state;
    CreditForm(s1, s.terms.landlord, landlordShare, SettlementLandlord);
  }

  /** Paying out everything that was left makes the lease allocated. */
  lemma AllPaidKeeps(s: State, t: State, toTenant: nat, toLandlord: nat, c: ActiveCase)
    requires Base(s) && SameFrame(s, t) && t.claims == s.claims && t.proposal == NO_PROPOSAL
    requires Paid(s, t, toTenant, toLandlord) && toTenant + toLandlord == s.accounting.unallocated > 0
    requires CaseOk(c, s.caseNonce, s.terms, s.schedule) && CaseDone(c)
    ensures Inv(t.(activeCase := c, phase := Phase.Allocated, decisions := []))
  {
    hide TotalFrom, ClaimsOk, ScheduleOk, CaseOk;
  }

  predicate CaseClosable(s: State, c: ActiveCase) {
    c == if s.activeCase.exists_ then s.activeCase.(phase := CasePhase.Finalized) else s.activeCase
  }

  lemma ClosedCaseOk(s: State, c: ActiveCase)
    requires Inv(s) && CaseClosable(s, c)
    ensures CaseOk(c, s.caseNonce, s.terms, s.schedule) && CaseDone(c)
  {
    hide TotalFrom, ClaimsOk, PhaseOk, ProposalOk;
  }

  lemma SharesKeep(s: State, c: ActiveCase, e: Event)
    requires Inv(s) && s.proposal.proposalId != 0 && CaseClosable(s, c)
    ensures var o := PayShares(s.(proposal := NO_PROPOSAL), s.proposal.tenantShare, s.proposal.landlordShare);
      o.Done? && Inv(Emit(o.state.(activeCase := c, phase := Phase.Allocated, decisions := []), e))
  {
    var p := s.proposal;
    var s0 := s.(proposal := NO_PROPOSAL);
    ClosedCaseOk(s, c);
    hide TotalFrom, ClaimsOk, ScheduleOk, CaseOk, LogKept, PhaseOk;
    SharesForm(s0, p.tenantShare, p.landlordShare);
    var s1 := PayShares(s0, p.tenantShare, p.landlordShare).state;
    AllPaidKeeps(s0, s1, p.tenantShare, p.landlordShare, c);
    hide PayShares, Inv, Folded, Absorb;
    EmitKeeps(s1.(activeCase := c, phase := Phase.Allocated, decisions := []), e);
  }

  lemma ConfirmSettlementKeeps(s: State, sender: Address, now: nat, proposalId: nat)
    requires Inv(s) && ConfirmSettlement(s, sender, now, proposalId).Done?
    ensures Inv(ConfirmSettlement(s, sender, now, proposalId).state)
  {
    hide PayShares, Inv, Folded, Absorb;
    var p := s.proposal;
    var c := if s.activeCase.exists_ then s.activeCase.(phase := CasePhase.Finalized) else s.activeCase;
    SharesKeep(s, c, SettlementConfirmed(proposalId, p.tenantShare, p.landlordShare));
    SharesFrame(s);
  }

  lemma SharesFrame(s: State)
    requires Inv(s) && s.proposal.proposalId != 0
    ensures var o := PayShares(s.(proposal := NO_PROPOSAL), s.proposal.tenantShare, s.proposal.landlordShare);
      o.Done? && o.state.activeCase == s.activeCase
  {
    SharesForm(s.(proposal := NO_PROPOSAL), s.proposal.tenantShare, s.proposal.landlordShare);
    hide PayShares;
  }

  lemma WithdrawToKeeps(s: State, sender: Address, beneficiary: Address, allowZero: bool, token: TokenAnswer)
    requires Inv(s) && WithdrawTo(s, sender, beneficiary, allowZero, token).Done?
    ensures Inv(WithdrawTo(s, sender, beneficiary, allowZero, token).state)
  {
    hide TotalFrom, ClaimsOk, ValidDecision, Folded, Absorb, CaseOk, ScheduleOk;
  }

  /** Every call that does not revert keeps the invariant. */
  lemma ExecKeeps(s: State, sender: Address, now: nat, call: Call)
    requires Inv(s) && Exec(s, sender, now, call).Done?
    ensures Inv(Exec(s, sender, now, call).state)
  {
    hide Inv, AcceptTerms, CancelUnfunded, ExpireUnfunded, Fund, RequestCheckout, RespondCheckout, OpenCheckoutCase;
    hide StartScheduledSettlement, SubmitClaims, RespondClaim, WaiveClaim, CloseClaims, OpenClaimCase;
    hide ProposeDecision, ProposeCheckoutDecision, Challenge, EscalateTimeout, FinalizePrimary, ResolveFallback;
    hide ResolveFallbackCheckout, MarkServiceTimeout, FinalizeTimeout, ExpireEscrow, ProposeSettlement;
    hide ConfirmSettlement, WithdrawTo;
    match call
    case CallAcceptTerms(h) => AcceptTermsKeeps(s, sender, now, h);
    case CallCancelUnfunded => CancelUnfundedKeeps(s, sender);
    case CallExpireUnfunded => ExpireUnfundedKeeps(s, sender, now);
    case CallFund(amount, registry, token) => FundKeeps(s, sender, now, amount, registry, token);
    case CallRequestCheckout(h) => RequestCheckoutKeeps(s, sender, now, h);
    case CallRespondCheckout(agree, h) => RespondCheckoutKeeps(s, sender, now, agree, h);
    case CallOpenCheckoutCase => OpenCheckoutCaseKeeps(s, now);
    case CallStartScheduledSettlement => StartScheduledSettlementKeeps(s, now);
    case CallSubmitClaims(inputs) => SubmitClaimsKeeps(s, sender, now, inputs);
    case CallRespondClaim(id, accept, h) => RespondClaimKeeps(s, sender, now, id, accept, h);
    case CallWaiveClaim(id) => WaiveClaimKeeps(s, sender, now, id);
    case CallCloseClaims => CloseClaimsKeeps(s, now);
    case CallOpenClaimCase => OpenClaimCaseKeeps(s, now);
    case CallProposeDecision(id, result, h) => ProposeDecisionKeeps(s, sender, now, id, result, h);
    case CallProposeCheckoutDecision(id, approved, h) => ProposeCheckoutDecisionKeeps(s, sender, now, id, approved, h);
    case CallChallenge(id, h) => ChallengeKeeps(s, sender, now, id, h);
    case CallEscalateTimeout(id) => EscalateTimeoutKeeps(s, sender, now, id);
    case CallFinalizePrimary(id) => FinalizePrimaryKeeps(s, now, id);
    case CallResolveFallback(id, result, h) => ResolveFallbackKeeps(s, sender, now, id, result, h);
    case CallResolveFallbackCheckout(id, approved, h) => ResolveFallbackCheckoutKeeps(s, sender, now, id, approved, h);
    case CallMarkServiceTimeout(id) => MarkServiceTimeoutKeeps(s, now, id);
    case CallFinalizeTimeout(id) => FinalizeTimeoutKeeps(s, now, id);
    case CallExpireEscrow => ExpireEscrowKeeps(s, now);
    case CallProposeSettlement(t, l, rev, until, h) => ProposeSettlementKeeps(s, sender, now, t, l, rev, until, h);
    case CallConfirmSettlement(id) => ConfirmSettlementKeeps(s, sender, now, id);
    case CallWithdraw(token) => WithdrawToKeeps(s, sender, sender, false, token);
    case CallWithdrawFor(b, token) => WithdrawToKeeps(s, sender, b, true, token);
  }

  /** A state a deployed lease can reach: any transactions, in the order of chain time. */
  ghost predicate Reachable(s: State) {
    exists t: Terms, factory: Address, start: nat, txs: seq<Tx> ::
      Deploy(t, factory, start).Done? && Chronological(txs) && s == Run(Deploy(t, factory, start).state, txs)
  }

  /** The invariant holds along every run. */
  lemma {:induction false} RunKeeps(s: State, txs: seq<Tx>)
    requires Inv(s)
    ensures Inv(Run(s, txs))
    decreases |txs|
  {
    hide Inv, Exec;
    if txs != [] {
      if Exec(s, txs[0].sender, txs[0].now, txs[0].call).Done? {
        ExecKeeps(s, txs[0].sender, txs[0].now, txs[0].call);
      }
      RunKeeps(Step(s, txs[0]), txs[1..]);
    }
  }

  /** Every reachable state satisfies the invariant. */
  lemma ReachableInv(s: State)
    requires Reachable(s)
    ensures Inv(s)
  {
    var t: Terms, factory: Address, start: nat, txs: seq<Tx> :|
      Deploy(t, factory, start).Done? && Chronological(txs) && s == Run(Deploy(t, factory, start).state, txs);
    DeployEstablishes(t, factory, start);
    RunKeeps(Deploy(t, factory, start).state, txs);
  }
}
