/** How a lease ends when nobody acts any more: one split, whichever public calls are made, and when. */
module EscrowExit {
  import opened EscrowTypes
  import opened ClaimTotals
  import opened EventLog
  import opened EscrowSpec
  import opened EscrowLoops
  import opened EscrowInvariant
  import opened EscrowPreservation
  import opened EscrowAudit
  import opened ClaimProvenance
  import opened LandlordGains

  /** Calls anyone may make: they need no party's and no resolver's decision. */
  predicate Public(call: Call) {
    call.CallOpenCheckoutCase? || call.CallStartScheduledSettlement? || call.CallCloseClaims?
    || call.CallOpenClaimCase? || call.CallEscalateTimeout? || call.CallFinalizePrimary?
    || call.CallMarkServiceTimeout? || call.CallFinalizeTimeout? || call.CallExpireEscrow?
    || call.CallWithdrawFor? || call.CallExpireUnfunded?
  }

  /** What a decision still open to challenge would award. */
  function PendingAward(s: State): nat {
    if s.phase.ClaimCase? && s.activeCase.phase.Proposed? then AwardsFrom(s.decisions, 0) else 0
  }

  /** What the landlord ends up with if nobody decides anything more: what he has, the claims the tenant
      has accepted but that are not closed yet, and the award of a decision that stands unchallenged. */
  function LandlordDue(s: State): nat {
    LandlordTotal(s.accounting) +
    (if s.accounting.unallocated == 0 then 0
     else (if s.claimsClosed then 0 else TotalFrom(s.claims, 0, AcceptedPart)) + PendingAward(s))
  }

  lemma CloseDue(s: State)
    requires Inv(s) && s.phase.ClaimsOpen?
    ensures CloseClaimsInternal(s).Done?
    ensures LandlordDue(CloseClaimsInternal(s).state) == LandlordDue(s)
  {
    hide CloseClaimsInternal, TotalFrom, SettledFrom, LogKept, CaseOk, ScheduleOk, ProposalOk, ClaimsOk;
    CloseForm(s);
  }

  lemma ApplyDue(s: State)
    requires Inv(s) && s.phase.ClaimCase? && s.activeCase.phase.Proposed?
    ensures ApplyDecision(s).Done? && ApplyDecision(s).state.accounting.unallocated == 0
    ensures LandlordTotal(ApplyDecision(s).state.accounting) == LandlordDue(s)
  {
    hide ApplyDecision, TotalFrom, AwardsFrom, AwardedFrom, LogKept, CaseOk, ScheduleOk, ProposalOk, ClaimsOk;
    hide ValidDecision, LockstepFrom;
    ApplyForm(s);
  }

  lemma OpenCheckoutCaseDue(s: State, now: nat)
    requires Inv(s) && OpenCheckoutCase(s, now).Done?
    ensures LandlordDue(OpenCheckoutCase(s, now).state) == LandlordDue(s)
  {
    hide Folded, AwardsFrom, CaseOk, ScheduleOk, ProposalOk;
  }

  lemma StartScheduledSettlementDue(s: State, now: nat)
    requires Inv(s) && StartScheduledSettlement(s, now).Done?
    ensures LandlordDue(StartScheduledSettlement(s, now).state) == LandlordDue(s)
  {
    hide Folded, AwardsFrom, CaseOk, ScheduleOk, ProposalOk, ClaimsOk;
  }

  lemma CloseClaimsDue(s: State, now: nat)
    requires Inv(s) && CloseClaims(s, now).Done?
    ensures LandlordDue(CloseClaims(s, now).state) == LandlordDue(s)
  {
    if !s.claimsClosed { CloseDue(s); }
    hide CloseClaimsInternal, Inv;
  }

  lemma OpenClaimCaseDue(s: State, now: nat)
    requires Inv(s) && OpenClaimCase(s, now).Done?
    ensures LandlordDue(OpenClaimCase(s, now).state) == LandlordDue(s)
  {
    hide Folded, AwardsFrom, TotalFrom, CaseOk, ScheduleOk, ProposalOk, ClaimsOk;
  }

  lemma EscalateTimeoutDue(s: State, sender: Address, now: nat, caseId: nat)
    requires Inv(s) && EscalateTimeout(s, sender, now, caseId).Done?
    ensures LandlordDue(EscalateTimeout(s, sender, now, caseId).state) == LandlordDue(s)
  {
    hide Folded, AwardsFrom, TotalFrom, CaseOk, ScheduleOk, ProposalOk, ClaimsOk;
  }

  lemma FinishCheckoutDue(s: State, now: nat, approved: bool)
    requires PreClaims(s) && s.activeCase.caseType.Checkout? && s.phase.CheckoutCase?
    requires FinishCheckoutCase(s, now, approved).Done?
    ensures LandlordDue(FinishCheckoutCase(s, now, approved).state) == LandlordDue(s)
  {
    hide Folded, AwardsFrom;
  }

  lemma FinalizePrimaryDue(s: State, now: nat, caseId: nat)
    requires Inv(s) && FinalizePrimary(s, now, caseId).Done?
    ensures LandlordDue(FinalizePrimary(s, now, caseId).state) == LandlordDue(s)
  {
    hide ApplyDecision, FinishCheckoutCase, Folded, AwardsFrom, TotalFrom, ScheduleOk, ProposalOk, ClaimsOk;
    if s.activeCase.phase.Proposed? {
      if s.activeCase.caseType.Claims? {
        ApplyDue(s);
      } else {
        FinishCheckoutDue(s, now, s.activeCase.checkoutApproved);
        hide LandlordDue;
        EmitDue(FinishCheckoutCase(s, now, s.activeCase.checkoutApproved).state,
                DecisionFinalized(caseId, s.activeCase.decisionHash));
      }
    }
  }

  lemma EmitDue(s: State, e: Event)
    ensures LandlordDue(Emit(s, e)) == LandlordDue(s)
  {
    hide Folded, AwardsFrom, TotalFrom;
  }

  lemma MarkServiceTimeoutDue(s: State, now: nat, caseId: nat)
    requires Inv(s) && MarkServiceTimeout(s, now, caseId).Done?
    ensures LandlordDue(MarkServiceTimeout(s, now, caseId).state) == LandlordDue(s)
  {
    hide FinishCheckoutCase, Folded, AwardsFrom, TotalFrom, ScheduleOk, ProposalOk, ClaimsOk;
    if s.activeCase.phase.Fallback? && s.activeCase.caseType.Checkout? {
      var at := s.activeCase.fallbackDeadline;
      var s1 := Emit(s.(activeCase := s.activeCase.(timeoutAt := at)), ServiceTimedOut(caseId, at));
      FinishCheckoutDue(s1, now, false);
      hide Inv;
    }
  }

  lemma FinalizeTimeoutDue(s: State, now: nat, caseId: nat)
    requires Inv(s) && FinalizeTimeout(s, now, caseId).Done?
    ensures LandlordDue(FinalizeTimeout(s, now, caseId).state) == LandlordDue(s)
  {
    hide AllocateCredit, Folded, AwardsFrom, TotalFrom, ScheduleOk, ProposalOk, ClaimsOk, LogKept;
    CreditForm(s, s.terms.tenant, s.accounting.unallocated, Timeout);
  }

  lemma RestToTenantDue(s: State)
    requires s.terms.tenant != s.terms.landlord
    ensures RestToTenant(s).Done?
    ensures LandlordDue(RestToTenant(s).state) == LandlordTotal(s.accounting)
    ensures RestToTenant(s).state.accounting.unallocated == 0
  {
    hide AllocateCredit, Folded, AwardsFrom, TotalFrom, LogKept;
    CreditForm(s, s.terms.tenant, s.accounting.unallocated, HardEnd);
  }

  lemma OpenForExpiryDue(s: State)
    requires Inv(s) && s.accounting.unallocated > 0
    ensures OpenForExpiry(s).Done? && LandlordDue(OpenForExpiry(s).state) == LandlordDue(s)
  {
    OpenForExpiryForm(s);
    hide OpenForExpiry, Folded, AwardsFrom, TotalFrom, CaseOk, ScheduleOk, ProposalOk, ClaimsOk;
    var t := OpenForExpiry(s).state;
    if !s.schedule.started { NoClaimsDue(s); NoClaimsDue(t); }
  }

  lemma NoClaimsDue(s: State)
    requires s.claims == [] && !s.phase.ClaimCase?
    ensures LandlordDue(s) == LandlordTotal(s.accounting)
  {
  }

  lemma CloseStageDue(s: State)
    requires Inv(s) && Underway(s)
    ensures CloseClaimsInternal(s).Done? && LandlordDue(CloseClaimsInternal(s).state) == LandlordDue(s)
  {
    hide TotalFrom, ClaimsOk, CaseOk, ScheduleOk, ProposalOk, LandlordDue;
    if s.phase.ClaimsOpen? { CloseDue(s); } else { assert CloseClaimsInternal(s).state == s; }
    hide CloseClaimsInternal;
  }

  lemma AwardStageDue(s: State, now: nat)
    requires Inv(s) && now >= s.terms.hardEndAt && s.claimsClosed && (Underway(s) || s.phase.Allocated?)
    ensures AwardUnchallenged(s, now).Done?
    ensures LandlordTotal(AwardUnchallenged(s, now).state.accounting) == LandlordDue(s)
  {
    hide TotalFrom, ClaimsOk, ScheduleOk, ProposalOk, ApplyDecision, ValidDecision, AwardsFrom;
    AwardUnchallengedForm(s, now);
    if UnchallengedProposal(s, now) { ApplyDue(s); }
  }

  lemma ExpireEscrowDue(s: State, now: nat)
    requires Inv(s) && ExpireEscrow(s, now).Done?
    ensures LandlordDue(ExpireEscrow(s, now).state) == LandlordDue(s)
    ensures ExpireEscrow(s, now).state.accounting.unallocated == 0
  {
    hide Inv, OpenForExpiry, CloseClaimsInternal, AwardUnchallenged, RestToTenant, LandlordDue;
    if s.accounting.unallocated == 0 {
      UnallocatedIs(s);
    } else {
      UnallocatedFunded(s);
      OpenForExpiryForm(s);
      OpenForExpiryDue(s);
      var s1 := OpenForExpiry(s).state;
      CloseStage(s1);
      CloseStageDue(s1);
      var s2 := CloseClaimsInternal(s1).state;
      AwardStageDue(s2, now);
      AwardUnchallengedForm(s2, now);
      PartiesDiffer(s);
      RestToTenantDue(AwardUnchallenged(s2, now).state);
    }
  }

  lemma WithdrawToDue(s: State, sender: Address, to: Address, allowZero: bool, token: TokenAnswer)
    requires Inv(s) && WithdrawTo(s, sender, to, allowZero, token).Done?
    ensures LandlordDue(WithdrawTo(s, sender, to, allowZero, token).state) == LandlordDue(s)
  {
    hide TotalFrom, AwardsFrom, Folded, ClaimsOk, CaseOk, ScheduleOk, ProposalOk;
  }

  lemma ExpireUnfundedDue(s: State, sender: Address, now: nat)
    requires Inv(s) && ExpireUnfunded(s, sender, now).Done?
    ensures LandlordDue(ExpireUnfunded(s, sender, now).state) == LandlordDue(s)
  {
    hide TotalFrom, AwardsFrom, Folded, CaseOk, ScheduleOk, ProposalOk;
  }

  /** No public call changes what the landlord is due. */
  lemma PublicKeepsDue(s: State, sender: Address, now: nat, call: Call)
    requires Inv(s) && Public(call) && Exec(s, sender, now, call).Done?
    ensures LandlordDue(Exec(s, sender, now, call).state) == LandlordDue(s)
  {
    hide Inv, LandlordDue, ExpireUnfunded, OpenCheckoutCase, StartScheduledSettlement, CloseClaims, OpenClaimCase;
    hide EscalateTimeout, FinalizePrimary, MarkServiceTimeout, FinalizeTimeout, ExpireEscrow, WithdrawTo;
    match call {
      case CallExpireUnfunded => ExpireUnfundedDue(s, sender, now);
      case CallOpenCheckoutCase => OpenCheckoutCaseDue(s, now);
      case CallStartScheduledSettlement => StartScheduledSettlementDue(s, now);
      case CallCloseClaims => CloseClaimsDue(s, now);
      case CallOpenClaimCase => OpenClaimCaseDue(s, now);
      case CallEscalateTimeout(id) => EscalateTimeoutDue(s, sender, now, id);
      case CallFinalizePrimary(id) => FinalizePrimaryDue(s, now, id);
      case CallMarkServiceTimeout(id) => MarkServiceTimeoutDue(s, now, id);
      case CallFinalizeTimeout(id) => FinalizeTimeoutDue(s, now, id);
      case CallExpireEscrow => ExpireEscrowDue(s, now);
      case CallWithdrawFor(b, token) => WithdrawToDue(s, sender, b, true, token);
      case _ =>
    }
  }

  predicate AllPublic(txs: seq<Tx>) {
    forall i :: 0 <= i < |txs| ==> Public(txs[i].call)
  }

  lemma {:induction false} PublicRunKeepsDue(s: State, txs: seq<Tx>)
    requires Inv(s) && AllPublic(txs)
    ensures Inv(Run(s, txs)) && LandlordDue(Run(s, txs)) == LandlordDue(s)
    ensures Run(s, txs).accounting.fundedAmount == s.accounting.fundedAmount
    decreases |txs|
  {
    hide Inv, Exec, LandlordDue;
    if txs != [] {
      var tx := txs[0];
      if Exec(s, tx.sender, tx.now, tx.call).Done? {
        ExecKeeps(s, tx.sender, tx.now, tx.call);
        PublicKeepsDue(s, tx.sender, tx.now, tx.call);
        PublicKeepsFunding(s, tx.sender, tx.now, tx.call);
      }
      PublicRunKeepsDue(Step(s, tx), txs[1..]);
    }
  }

  lemma PublicKeepsFunding(s: State, sender: Address, now: nat, call: Call)
    requires Inv(s) && Public(call) && Exec(s, sender, now, call).Done?
    ensures Exec(s, sender, now, call).state.accounting.fundedAmount == s.accounting.fundedAmount
  {
    if !call.CallWithdrawFor? {
      hide Exec, Inv;
      ExecMoves(s, sender, now, call);
      hide Folded;
    } else {
      hide Inv, Folded;
    }
  }

  /** Confluence: two sequences of public calls that both leave nothing unallocated end in the same split,
      whatever the calls, their order and their times. */
  lemma Confluence(s: State, one: seq<Tx>, other: seq<Tx>)
    requires Inv(s) && AllPublic(one) && AllPublic(other)
    requires Run(s, one).accounting.unallocated == 0 && Run(s, other).accounting.unallocated == 0
    ensures LandlordTotal(Run(s, one).accounting) == LandlordTotal(Run(s, other).accounting) == LandlordDue(s)
    ensures TenantTotal(Run(s, one).accounting) == TenantTotal(Run(s, other).accounting)
         == s.accounting.fundedAmount - LandlordDue(s)
  {
    hide Run;
    PublicRunKeepsDue(s, one);
    PublicRunKeepsDue(s, other);
    FinalSplit(Run(s, one));
    FinalSplit(Run(s, other));
    hide Inv, LandlordDue;
  }

  lemma FinalSplit(s: State)
    requires Inv(s) && s.accounting.unallocated == 0
    ensures LandlordDue(s) == LandlordTotal(s.accounting)
    ensures TenantTotal(s.accounting) == s.accounting.fundedAmount - LandlordDue(s)
  {
    hide TotalFrom, AwardsFrom, ClaimsOk, CaseOk, ScheduleOk, ProposalOk, PhaseOk;
  }

  /** Guaranteed exit: from the hard end on, anyone can end a funded lease; expiry cannot revert, leaves
      nothing unallocated, and pays the landlord exactly what he was due. */
  lemma GuaranteedExit(s: State, sender: Address, now: nat)
    requires Inv(s) && s.accounting.fundedAmount > 0 && now >= s.terms.hardEndAt
    ensures var o := Exec(s, sender, now, CallExpireEscrow);
      && o.Done? && o.state.accounting.unallocated == 0 && Final(o.state)
      && LandlordTotal(o.state.accounting) == LandlordDue(s)
      && TenantTotal(o.state.accounting) == s.accounting.fundedAmount - LandlordDue(s)
  {
    hide Inv, LandlordDue, SettleAtExpiry, Folded;
    if s.accounting.unallocated > 0 {
      ExpireEscrowForm(s, now);
      hide ExpireEscrow;
      ExpireEscrowDue(s, now);
      PublicKeepsFunding(s, sender, now, CallExpireEscrow);
    } else {
      UnallocatedIs(s);
    }
    FinalSplit(ExpireEscrow(s, now).state);
  }

  /** Waiting for the hard end gives the same split as any prompt sequence of public calls that completes. */
  lemma WaitingIsAsGood(s: State, prompt: seq<Tx>, sender: Address, now: nat)
    requires Inv(s) && s.accounting.fundedAmount > 0 && now >= s.terms.hardEndAt
    requires AllPublic(prompt) && Run(s, prompt).accounting.unallocated == 0
    ensures var late := After(Exec(s, sender, now, CallExpireEscrow), s).accounting;
            var early := Run(s, prompt).accounting;
      LandlordTotal(late) == LandlordTotal(early) && TenantTotal(late) == TenantTotal(early)
  {
    hide Run, Exec, LandlordDue, Inv;
    GuaranteedExit(s, sender, now);
    Confluence(s, prompt, prompt);
  }

  // ---------- only decisions favour the landlord ----------

  /** The four calls by which somebody decides in the landlord's favour: the tenant accepts a claim, a
      resolver proposes or gives an award, a party confirms the other's settlement. */
  predicate Favours(call: Call) {
    (call.CallRespondClaim? && call.accept) || call.CallProposeDecision? || call.CallResolveFallback?
    || call.CallConfirmSettlement?
  }

  lemma WaiveDue(s: State, sender: Address, now: nat, claimId: nat)
    requires Inv(s) && WaiveClaim(s, sender, now, claimId).Done?
    ensures LandlordDue(WaiveClaim(s, sender, now, claimId).state) <= LandlordDue(s)
  {
    hide TotalFrom, AwardsFrom, Folded, AllocateCredit, CaseOk, ScheduleOk, ProposalOk, LogKept, IsOpen, ClaimsOk;
    var k := claimId - 1;
    var c := s.claims[k].(status := ClaimStatus.Waived);
    if s.claimsClosed {
      TotalUpdate(s.claims, 0, k, c, DisputedPart);
      CreditForm(s.(claims := s.claims[k := c]), s.terms.tenant, c.amount, WaivedClaim);
    } else {
      TotalUpdate(s.claims, 0, k, c, AcceptedPart);
    }
  }

  lemma RejectDue(s: State, sender: Address, now: nat, claimId: nat, h: Hash)
    requires Inv(s) && RespondClaim(s, sender, now, claimId, false, h).Done?
    ensures LandlordDue(RespondClaim(s, sender, now, claimId, false, h).state) <= LandlordDue(s)
  {
    hide TotalFrom, AwardsFrom, Folded, AllocateCredit, CaseOk, ScheduleOk, ProposalOk, IsOpen, ClaimsOk;
    var k := claimId - 1;
    TotalUpdate(s.claims, 0, k, s.claims[k].(status := ClaimStatus.Disputed, responseCommitment := h), AcceptedPart);
  }

  lemma {:induction false} NewClaimsAccepted(inputs: seq<ClaimInput>, i: nat)
    ensures TotalFrom(NewClaims(inputs), i, AcceptedPart) == 0
    decreases |inputs| - i
  {
    if i < |inputs| { NewClaimsAccepted(inputs, i + 1); }
  }

  lemma SubmitDue(s: State, sender: Address, now: nat, inputs: seq<ClaimInput>)
    requires Inv(s) && SubmitClaims(s, sender, now, inputs).Done?
    ensures LandlordDue(SubmitClaims(s, sender, now, inputs).state) <= LandlordDue(s)
  {
    hide AwardsFrom, Folded, CaseOk, ScheduleOk, ProposalOk, CheckInputs;
    NewClaimsAccepted(inputs, 0);
    assert s.claims + NewClaims(inputs) == NewClaims(inputs);
  }

  lemma ChallengeDue(s: State, sender: Address, now: nat, caseId: nat, h: Hash)
    requires Inv(s) && Challenge(s, sender, now, caseId, h).Done?
    ensures LandlordDue(Challenge(s, sender, now, caseId, h).state) <= LandlordDue(s)
  {
    hide AwardsFrom, TotalFrom, Folded, ScheduleOk, ProposalOk, ClaimsOk;
  }

  lemma ResolveCheckoutDue(s: State, sender: Address, now: nat, caseId: nat, approved: bool, h: Hash)
    requires Inv(s) && ResolveFallbackCheckout(s, sender, now, caseId, approved, h).Done?
    ensures LandlordDue(ResolveFallbackCheckout(s, sender, now, caseId, approved, h).state) <= LandlordDue(s)
  {
    hide FinishCheckoutCase, AwardsFrom, TotalFrom, Folded, ScheduleOk, ProposalOk, ClaimsOk;
    var digest := CheckoutDigest(caseId, approved, h);
    var s1 := s.(activeCase := s.activeCase.(proposalHash := h, decisionHash := digest, checkoutApproved := approved));
    FinishCheckoutDue(s1, now, approved);
    var s2 := FinishCheckoutCase(s1, now, approved).state;
    EmitDue(s2, DecisionFinalized(caseId, digest));
    hide Inv;
  }

  /** Before the claims are open, and in the calls that only ask or propose, nothing is due anew. */
  lemma OtherDue(s: State, sender: Address, now: nat, call: Call)
    requires Inv(s) && Exec(s, sender, now, call).Done?
    requires call.CallAcceptTerms? || call.CallCancelUnfunded? || call.CallFund? || call.CallRequestCheckout?
             || call.CallRespondCheckout? || call.CallProposeCheckoutDecision? || call.CallProposeSettlement?
    ensures LandlordDue(Exec(s, sender, now, call).state) <= LandlordDue(s)
  {
    hide Exec, Inv, LandlordDue;
    if call.CallRequestCheckout? || call.CallRespondCheckout? || call.CallProposeCheckoutDecision? {
      CheckoutCallDue(s, sender, now, call);
    } else {
      UnfundedCallDue(s, sender, now, call);
    }
  }

  lemma UnfundedCallDue(s: State, sender: Address, now: nat, call: Call)
    requires Inv(s) && Exec(s, sender, now, call).Done?
    requires call.CallAcceptTerms? || call.CallCancelUnfunded? || call.CallFund? || call.CallProposeSettlement?
    ensures LandlordDue(Exec(s, sender, now, call).state) <= LandlordDue(s)
  {
    hide AwardsFrom, Folded, CaseOk, ScheduleOk, ProposalOk, ClaimsOk;
  }

  lemma RequestDue(s: State, sender: Address, now: nat, h: Hash)
    requires Inv(s) && RequestCheckout(s, sender, now, h).Done?
    ensures LandlordDue(RequestCheckout(s, sender, now, h).state) == LandlordDue(s)
  {
    hide Inv, LandlordDue, Folded;
    EarlyDue(s, RequestCheckout(s, sender, now, h).state);
  }

  lemma AnswerDue(s: State, sender: Address, now: nat, agree: bool, h: Hash)
    requires Inv(s) && RespondCheckout(s, sender, now, agree, h).Done?
    ensures LandlordDue(RespondCheckout(s, sender, now, agree, h).state) == LandlordDue(s)
  {
    hide Inv, LandlordDue, StartClaims, Folded;
    var s1 := InvalidateSettlement(s.(checkout := s.checkout.(responded := true, agreed := agree)));
    if agree { StartDue(s1.(checkout := s1.checkout.(resolved := true)), now); }
    EarlyDue(s, RespondCheckout(s, sender, now, agree, h).state);
  }

  lemma ProposeCheckoutDue(s: State, sender: Address, now: nat, id: nat, approved: bool, h: Hash)
    requires Inv(s) && ProposeCheckoutDecision(s, sender, now, id, approved, h).Done?
    ensures LandlordDue(ProposeCheckoutDecision(s, sender, now, id, approved, h).state) == LandlordDue(s)
  {
    hide Inv, LandlordDue, RecordPrimaryProposal;
    RecordDue(s, sender, now, h, CheckoutDigest(id, approved, h), approved);
  }

  lemma CheckoutCallDue(s: State, sender: Address, now: nat, call: Call)
    requires Inv(s) && Exec(s, sender, now, call).Done?
    requires call.CallRequestCheckout? || call.CallRespondCheckout? || call.CallProposeCheckoutDecision?
    ensures LandlordDue(Exec(s, sender, now, call).state) <= LandlordDue(s)
  {
    hide Inv, LandlordDue, RequestCheckout, RespondCheckout, ProposeCheckoutDecision;
    match call {
      case CallRequestCheckout(h) => RequestDue(s, sender, now, h);
      case CallRespondCheckout(agree, h) => AnswerDue(s, sender, now, agree, h);
      case CallProposeCheckoutDecision(id, approved, h) =>
        hide RecordPrimaryProposal;
        ProposeCheckoutDue(s, sender, now, id, approved, h);
    }
  }

  /** While a lease waits for a checkout, there are no claims, and nothing is due. */
  lemma EarlyDue(s: State, t: State)
    requires Inv(s) && (s.phase.Active? || s.phase.CheckoutRequested?)
    requires t.claims == s.claims && !t.phase.ClaimCase? && LandlordTotal(t.accounting) == LandlordTotal(s.accounting)
    ensures LandlordDue(t) == LandlordDue(s)
  {
    hide AwardsFrom, CaseOk, ScheduleOk, ProposalOk, ClaimsOk;
    NoClaimsDue(s);
    NoClaimsDue(t);
  }

  lemma StartDue(s: State, at: nat)
    requires StartClaims(s, at).Done?
    ensures var t := StartClaims(s, at).state;
      t.claims == s.claims && t.accounting == s.accounting && (t.phase.ClaimsOpen? || t.phase == s.phase)
  {
    hide Folded;
  }

  lemma RecordDue(s: State, sender: Address, now: nat, h: Hash, digest: Digest, approved: bool)
    requires Inv(s) && s.activeCase.exists_ && s.activeCase.caseType.Checkout? && s.activeCase.phase.Primary?
    requires RecordPrimaryProposal(s, sender, now, h, digest, approved).Done?
    ensures LandlordDue(RecordPrimaryProposal(s, sender, now, h, digest, approved).state) == LandlordDue(s)
  {
    hide TotalFrom, AwardsFrom, CaseOk, ScheduleOk, ProposalOk, ClaimsOk, Folded;
  }

  /** Unless one of those four calls succeeds, what the landlord is due does not rise. */
  lemma DueNeverRises(s: State, sender: Address, now: nat, call: Call)
    requires Inv(s) && !Favours(call)
    ensures LandlordDue(After(Exec(s, sender, now, call), s)) <= LandlordDue(s)
  {
    if Exec(s, sender, now, call).Done? {
      if Public(call) {
        hide Exec, Inv, LandlordDue;
        PublicKeepsDue(s, sender, now, call);
      } else {
        match call {
          case CallWaiveClaim(id) => WaiveDue(s, sender, now, id);
          case CallRespondClaim(id, _, h) => RejectDue(s, sender, now, id, h);
          case CallSubmitClaims(inputs) => SubmitDue(s, sender, now, inputs);
          case CallChallenge(id, h) => ChallengeDue(s, sender, now, id, h);
          case CallResolveFallbackCheckout(id, approved, h) => ResolveCheckoutDue(s, sender, now, id, approved, h);
          case CallWithdraw(token) => WithdrawToDue(s, sender, sender, false, token);
          case _ => OtherDue(s, sender, now, call);
        }
        hide Inv, LandlordDue, WaiveClaim, RespondClaim, SubmitClaims, Challenge, ResolveFallbackCheckout, WithdrawTo;
      }
    }
  }

  /** None of those four calls succeeded. */
  predicate Unfavoured(h: seq<Act>) {
    forall j :: 0 <= j < |h| ==> !Favours(h[j].tx.call)
  }

  lemma TotalWithinDue(s: State)
    ensures LandlordTotal(s.accounting) <= LandlordDue(s)
  {
    hide TotalFrom, AwardsFrom;
  }

  /** At deployment nothing is due. */
  lemma NothingDueAtDeployment(t: Terms, factory: Address, start: nat)
    requires Deploy(t, factory, start).Done?
    ensures LandlordDue(Deploy(t, factory, start).state) == 0
  {
  }

  /** Along a run in which none of them succeeds the landlord is never due more than at its start. */
  lemma {:induction false} SilenceFavoursTheTenant(s: State, txs: seq<Tx>)
    requires Inv(s) && Unfavoured(Executed(s, txs))
    ensures LandlordTotal(Run(s, txs).accounting) <= LandlordDue(Run(s, txs)) <= LandlordDue(s)
    decreases |txs|
  {
    TotalWithinDue(s);
    hide Inv, Exec, LandlordDue, Favours;
    if txs != [] {
      var tx := txs[0];
      var h := Executed(s, txs);
      if Exec(s, tx.sender, tx.now, tx.call).Done? {
        var rest := Executed(Step(s, tx), txs[1..]);
        assert h == [Act(s, tx)] + rest && h[0] == Act(s, tx);
        assert forall j :: 0 <= j < |rest| ==> rest[j] == h[j + 1];
        DueNeverRises(s, tx.sender, tx.now, tx.call);
        ExecKeeps(s, tx.sender, tx.now, tx.call);
      }
      SilenceFavoursTheTenant(Step(s, tx), txs[1..]);
    }
  }

  /** Silence gives the landlord nothing: along any run from deployment in which no acceptance by the tenant succeeds,
      no vector that awards him something is carried out, and no settlement with a share for him is confirmed, he gets
      nothing. Calls that are refused, and proposals that a challenge deletes, change nothing about that. */
  lemma SilenceFromDeployment(t: Terms, factory: Address, start: nat, txs: seq<Tx>)
    requires Deploy(t, factory, start).Done? && Undecided(Executed(Deploy(t, factory, start).state, txs))
    ensures LandlordTotal(Run(Deploy(t, factory, start).state, txs).accounting) == 0
  {
    hide Run, Inv, Decides, CheckTerms;
    DeployEstablishes(t, factory, start);
    UndecidedRun(Deploy(t, factory, start).state, txs);
  }
}
