/** Claim by claim, why the landlord got what he got: the tenant accepted the claim, or a resolver awarded exactly
    that amount (contracts/src/DepositEscrow.sol:626-659, 1280-1303, 1363-1379). */
module ClaimProvenance {
  import opened EscrowTypes
  import opened ClaimTotals
  import opened EventLog
  import opened EscrowSpec
  import opened EscrowLoops
  import opened EscrowInvariant
  import opened EscrowPreservation
  import opened EscrowAudit
  import opened EscrowHistory

  // ---------- one call ----------

  /** The vector awards exactly that amount of that claim. */
  predicate Names(ds: seq<DecisionInput>, claimId: nat, amount: nat) {
    exists k :: 0 <= k < |ds| && ds[k].claimId == claimId && ds[k].landlordAmount == amount
  }

  /** The claim a call accepts, if it does; no claim has the number zero. */
  function AcceptedBy(call: Call): nat {
    if call.CallRespondClaim? && call.accept then call.claimId else 0
  }

  /** The decision vector a call brings. */
  function VectorOf(call: Call): seq<DecisionInput> {
    if call.CallProposeDecision? || call.CallResolveFallback? then call.result else []
  }

  /** The vector a successful call carries out: the fallback resolver's own, or the stored primary decision once its
      challenge window is over. */
  function Applied(s: State, now: nat, call: Call): seq<DecisionInput> {
    if call.CallResolveFallback? then call.result
    else if (call.CallFinalizePrimary? || call.CallExpireEscrow?) && UnchallengedProposal(s, now) then s.decisions
    else []
  }

  /** A successful call that closes the claims. */
  predicate Closes(s: State, call: Call) {
    (call.CallCloseClaims? || call.CallExpireEscrow?) && !s.claimsClosed && s.accounting.unallocated > 0
  }

  /** What a call decides about claims: the vector it carries out, the claim it accepts, whether the claims were closed
      before it, and whether it closes them. */
  datatype Deed = Deed(award: seq<DecisionInput>, accepts: nat, closed: bool, closes: bool)

  function DeedOf(s: State, now: nat, call: Call): Deed {
    Deed(Applied(s, now, call), AcceptedBy(call), s.claimsClosed, Closes(s, call))
  }

  /** The grounds on which a deed gives the landlord that amount of a claim: the tenant accepts it after closing, or
      had accepted it when the deed closes, or the vector carried out names it. */
  predicate Grounds(c: Claim, amount: nat, deed: Deed, accepts: bool) {
    || (amount == c.amount && accepts && deed.closed)
    || (amount == c.amount && c.status.Accepted? && deed.closes)
    || Names(deed.award, c.id, amount)
  }

  /** What one deed may make of one claim. The landlord's part is written once, on one of these grounds. */
  predicate ClaimMoves(c: Claim, d: Claim, deed: Deed, accepts: bool) {
    && d.id == c.id && d.amount == c.amount
    && (d.status.Accepted? ==> c.status.Accepted? || accepts)
    && (d.landlordAllocated != c.landlordAllocated ==>
          c.landlordAllocated == 0 && Grounds(c, d.landlordAllocated, deed, accepts))
  }

  predicate ClaimsMove(cs: seq<Claim>, ds: seq<Claim>, deed: Deed) {
    && |cs| <= |ds|
    && (forall i :: 0 <= i < |cs| ==> ClaimMoves(cs[i], ds[i], deed, deed.accepts == i + 1))
    && (forall i :: |cs| <= i < |ds| ==> ds[i].landlordAllocated == 0 && !ds[i].status.Accepted?)
  }

  lemma ClaimsStay(cs: seq<Claim>, deed: Deed)
    ensures ClaimsMove(cs, cs, deed)
  {
  }

  lemma ClaimsMoveOn(cs: seq<Claim>, ds: seq<Claim>, es: seq<Claim>, deed: Deed)
    requires ClaimsMove(cs, ds, deed) && ClaimsMove(ds, es, deed) && |cs| == |ds| && deed.accepts == 0
    ensures ClaimsMove(cs, es, deed)
  {
    hide Names;
  }

  /** One call, over all claims and the stored vector, which is kept, deleted, or the one the call brings. */
  predicate Accounts(s: State, t: State, now: nat, call: Call) {
    && ClaimsMove(s.claims, t.claims, DeedOf(s, now, call))
    && (t.decisions == s.decisions || t.decisions == [] || (VectorOf(call) != [] && t.decisions == VectorOf(call)))
  }

  /** The claims are as they were, and the stored vector at most deleted. */
  predicate Untouched(s: State, t: State) {
    t.claims == s.claims && (t.decisions == s.decisions || t.decisions == [])
  }

  lemma UntouchedAccounts(s: State, t: State, now: nat, call: Call)
    requires Untouched(s, t)
    ensures Accounts(s, t, now, call)
  {
    ClaimsStay(s.claims, DeedOf(s, now, call));
    hide ClaimsMove;
  }

  lemma FinishUntouched(s: State, now: nat, approved: bool)
    requires FinishCheckoutCase(s, now, approved).Done?
    ensures Untouched(s, FinishCheckoutCase(s, now, approved).state)
  {
    hide Folded;
  }

  lemma CreditUntouched(s: State, to: Address, amount: nat, source: Source)
    requires AllocateCredit(s, to, amount, source).Done?
    ensures Untouched(s, AllocateCredit(s, to, amount, source).state)
    ensures AllocateCredit(s, to, amount, source).state.decisions == s.decisions
    ensures AllocateCredit(s, to, amount, source).state.terms == s.terms
  {
    hide Folded;
  }

  lemma SharesUntouched(s: State, tenantShare: nat, landlordShare: nat)
    requires PayShares(s, tenantShare, landlordShare).Done?
    ensures Untouched(s, PayShares(s, tenantShare, landlordShare).state)
  {
    hide AllocateCredit;
    CreditUntouched(s, s.terms.tenant, tenantShare, SettlementTenant);
    var s1 := AllocateCredit(s, s.terms.tenant, tenantShare, SettlementTenant).state;
    CreditUntouched(s1, s1.terms.landlord, landlordShare, SettlementLandlord);
  }

  /** Calls about the lease, the money or a proposal. */
  lemma LeaseCallUntouched(s: State, sender: Address, now: nat, call: Call)
    requires Exec(s, sender, now, call).Done?
    requires call.CallAcceptTerms? || call.CallCancelUnfunded? || call.CallExpireUnfunded? || call.CallFund?
             || call.CallProposeSettlement? || call.CallWithdraw? || call.CallWithdrawFor? || call.CallRequestCheckout?
    ensures Untouched(s, Exec(s, sender, now, call).state)
  {
    hide Folded;
  }

  /** Calls about a checkout, and escalations. */
  lemma CaseCallUntouched(s: State, sender: Address, now: nat, call: Call)
    requires Exec(s, sender, now, call).Done?
    requires call.CallOpenCheckoutCase? || call.CallProposeCheckoutDecision? || call.CallChallenge?
             || call.CallEscalateTimeout?
    ensures Untouched(s, Exec(s, sender, now, call).state)
  {
    hide Folded;
  }

  lemma StartUntouched(s: State, at: nat)
    requires StartClaims(s, at).Done?
    ensures StartClaims(s, at).state.claims == s.claims && StartClaims(s, at).state.decisions == s.decisions
  {
    hide Folded;
  }

  lemma InvalidatedUntouched(s: State)
    ensures InvalidateCheckoutCase(s).claims == s.claims && InvalidateCheckoutCase(s).decisions == []
  {
    hide Folded;
  }

  /** Calls that open the claims. */
  lemma OpeningCallUntouched(s: State, sender: Address, now: nat, call: Call)
    requires Exec(s, sender, now, call).Done?
    requires call.CallRespondCheckout? || call.CallStartScheduledSettlement?
    ensures Untouched(s, Exec(s, sender, now, call).state)
  {
    hide Folded, StartClaims, InvalidateCheckoutCase;
    match call
    case CallRespondCheckout(agree, h) =>
      var s1 := InvalidateSettlement(s.(checkout := s.checkout.(responded := true, agreed := agree)));
      if agree { StartUntouched(s1.(checkout := s1.checkout.(resolved := true)), now); }
    case CallStartScheduledSettlement =>
      if !s.schedule.started {
        InvalidatedUntouched(InvalidateSettlement(s));
        StartUntouched(InvalidateCheckoutCase(InvalidateSettlement(s)), s.terms.leaseEndAt);
      }
  }

  /** Calls that end a checkout case, a timeout or a settlement. */
  lemma EndingCallUntouched(s: State, sender: Address, now: nat, call: Call)
    requires Exec(s, sender, now, call).Done?
    requires call.CallResolveFallbackCheckout? || call.CallMarkServiceTimeout? || call.CallFinalizeTimeout?
             || call.CallConfirmSettlement?
    ensures Untouched(s, Exec(s, sender, now, call).state)
  {
    hide MarkServiceTimeout, FinalizeTimeout, ConfirmSettlement, ResolveFallbackCheckout, Untouched;
    match call
    case CallResolveFallbackCheckout(id, approved, h) => ResolveCheckoutUntouched(s, sender, now, id, approved, h);
    case CallMarkServiceTimeout(id) => MarkTimeoutUntouched(s, now, id);
    case CallFinalizeTimeout(id) => FinalizeTimeoutUntouched(s, now, id);
    case CallConfirmSettlement(id) => ConfirmUntouched(s, sender, now, id);
  }

  lemma ResolveCheckoutUntouched(s: State, sender: Address, now: nat, id: nat, approved: bool, h: Hash)
    requires ResolveFallbackCheckout(s, sender, now, id, approved, h).Done?
    ensures Untouched(s, ResolveFallbackCheckout(s, sender, now, id, approved, h).state)
  {
    hide Folded, FinishCheckoutCase;
    FinishUntouched(s.(activeCase := s.activeCase.(proposalHash := h, decisionHash := CheckoutDigest(id, approved, h),
                                                   checkoutApproved := approved)), now, approved);
  }

  lemma MarkTimeoutUntouched(s: State, now: nat, id: nat)
    requires MarkServiceTimeout(s, now, id).Done?
    ensures Untouched(s, MarkServiceTimeout(s, now, id).state)
  {
    hide Folded, FinishCheckoutCase;
    if s.activeCase.phase.Fallback? && s.activeCase.caseType.Checkout? {
      var at := s.activeCase.fallbackDeadline;
      FinishUntouched(Emit(s.(activeCase := s.activeCase.(timeoutAt := at)), ServiceTimedOut(id, at)), now, false);
    }
  }

  lemma FinalizeTimeoutUntouched(s: State, now: nat, id: nat)
    requires FinalizeTimeout(s, now, id).Done?
    ensures Untouched(s, FinalizeTimeout(s, now, id).state)
  {
    hide Folded, AllocateCredit;
    if s.activeCase.phase.ExitPending? { CreditUntouched(s, s.terms.tenant, s.accounting.unallocated, Timeout); }
  }

  lemma ConfirmUntouched(s: State, sender: Address, now: nat, id: nat)
    requires ConfirmSettlement(s, sender, now, id).Done?
    ensures Untouched(s, ConfirmSettlement(s, sender, now, id).state)
  {
    hide Folded, PayShares;
    SharesUntouched(s.(proposal := NO_PROPOSAL), s.proposal.tenantShare, s.proposal.landlordShare);
  }

  lemma SubmitAccounts(s: State, sender: Address, now: nat, inputs: seq<ClaimInput>)
    requires SubmitClaims(s, sender, now, inputs).Done?
    ensures Accounts(s, SubmitClaims(s, sender, now, inputs).state, now, CallSubmitClaims(inputs))
  {
    hide Folded, CheckInputs, InputTotal, Names;
  }

  /** An open claim has given nothing. */
  lemma GivenNothing(s: State, k: nat)
    requires Inv(s) && k < |s.claims| && IsOpen(s.claims[k])
    ensures s.claims[k].landlordAllocated == 0
  {
    hide PhaseOk, CaseOk, ScheduleOk, ProposalOk, TotalFrom;
  }

  lemma RespondAccounts(s: State, sender: Address, now: nat, claimId: nat, accept: bool, h: Hash)
    requires Inv(s) && RespondClaim(s, sender, now, claimId, accept, h).Done?
    ensures Accounts(s, RespondClaim(s, sender, now, claimId, accept, h).state, now,
                     CallRespondClaim(claimId, accept, h))
  {
    hide Folded, AllocateCredit, TotalFrom, ClaimsOk, CaseOk, ScheduleOk, ProposalOk, PhaseOk, IsOpen, Names;
    var k := claimId - 1;
    GivenNothing(s, k);
    var c := s.claims[k].(status := if accept then Accepted else Disputed, responseCommitment := h);
    var s1 := s.(claims := s.claims[k := c]);
    if s.claimsClosed && accept { CreditUntouched(s1, s.terms.landlord, c.amount, AcceptedClaim); }
  }

  lemma WaiveAccounts(s: State, sender: Address, now: nat, claimId: nat)
    requires WaiveClaim(s, sender, now, claimId).Done?
    ensures Accounts(s, WaiveClaim(s, sender, now, claimId).state, now, CallWaiveClaim(claimId))
  {
    hide Folded, AllocateCredit, IsOpen, Names;
    var k := claimId - 1;
    var c := s.claims[k].(status := ClaimStatus.Waived);
    if s.claimsClosed { CreditUntouched(s.(claims := s.claims[k := c]), s.terms.tenant, c.amount, WaivedClaim); }
  }

  /** Closing pays the landlord only claims the tenant has accepted. */
  lemma CloseMovesClaims(s: State, deed: Deed)
    requires Inv(s) && s.phase.ClaimsOpen? && deed.closes
    ensures CloseClaimsInternal(s).Done? && CloseClaimsInternal(s).state.decisions == s.decisions
    ensures ClaimsMove(s.claims, CloseClaimsInternal(s).state.claims, deed)
  {
    hide CloseClaimsInternal, TotalFrom, CaseOk, ScheduleOk, ProposalOk, LogKept, Names;
    CloseForm(s);
  }

  lemma OpenCaseAccounts(s: State, now: nat)
    requires OpenClaimCase(s, now).Done?
    ensures Accounts(s, OpenClaimCase(s, now).state, now, CallOpenClaimCase)
  {
    hide Folded, TotalFrom, Names;
  }

  lemma ProposeAccounts(s: State, sender: Address, now: nat, caseId: nat, result: seq<DecisionInput>, h: Hash)
    requires ProposeDecision(s, sender, now, caseId, result, h).Done?
    ensures Accounts(s, ProposeDecision(s, sender, now, caseId, result, h).state, now,
                     CallProposeDecision(caseId, result, h))
  {
    hide Folded, ValidDecision, Names;
  }

  /** The converse of the entry-by-entry rule: what a decision gives the landlord of a claim is what an entry names. */
  lemma {:induction false} AwardsNamed(cs: seq<Claim>, i: nat, ds: seq<DecisionInput>, k: nat, j: nat)
    requires Numbered(cs) && LockstepFrom(ds, k, cs, i) && i <= j < |cs| && cs[j].status.Disputed?
    ensures Names(ds, j + 1, AwardedFrom(cs, i, ds, k)[j].landlordAllocated)
    decreases |cs| - i
  {
    if cs[i].status.Disputed? {
      LockstepHead(cs, i, ds, k);
      var c := Award(cs[i], ds[k].landlordAmount);
      AwardedAt(cs[i := c], i + 1, ds, k + 1);
      if j > i {
        AwardsNamed(cs[i := c], i + 1, ds, k + 1, j);
      } else {
        assert ds[k].claimId == j + 1 && ds[k].landlordAmount == AwardedFrom(cs, i, ds, k)[j].landlordAllocated;
      }
    } else {
      LockstepSkip(cs, i, ds, k);
      AwardsNamed(cs, i + 1, ds, k, j);
    }
  }

  lemma AwardedMoves(cs: seq<Claim>, deed: Deed)
    requires Numbered(cs) && LockstepFrom(deed.award, 0, cs, 0)
    requires forall j :: 0 <= j < |cs| && cs[j].status.Disputed? ==> cs[j].landlordAllocated == 0
    ensures ClaimsMove(cs, AwardedFrom(cs, 0, deed.award, 0), deed)
  {
    AwardedAt(cs, 0, deed.award, 0);
    forall j | 0 <= j < |cs| && cs[j].status.Disputed?
      ensures Names(deed.award, j + 1, AwardedFrom(cs, 0, deed.award, 0)[j].landlordAllocated)
    {
      AwardsNamed(cs, 0, deed.award, 0, j);
    }
    hide AwardedFrom, Names, LockstepFrom;
  }

  lemma ApplyMovesClaims(s: State, deed: Deed)
    requires Base(s) && InReview(s) && ValidDecision(s.claims, s.decisions) && deed.award == s.decisions
    requires s.activeCase.disputedAmount == s.accounting.unallocated
    ensures ApplyDecision(s).Done? && ApplyDecision(s).state.decisions == s.decisions
    ensures ClaimsMove(s.claims, ApplyDecision(s).state.claims, deed)
  {
    hide ApplyDecision, TotalFrom, AwardsFrom, AwardedFrom, LockstepFrom, LogKept, ValidDecision, CaseOk, ScheduleOk;
    hide ProposalOk, Names, ClaimsMove;
    ApplyForm(s);
    AwardedMoves(s.claims, deed);
  }

  lemma FinalizeAccounts(s: State, now: nat, caseId: nat)
    requires Inv(s) && FinalizePrimary(s, now, caseId).Done?
    ensures Accounts(s, FinalizePrimary(s, now, caseId).state, now, CallFinalizePrimary(caseId))
  {
    hide ApplyDecision, FinishCheckoutCase, Folded, ClaimsMove, TotalFrom, ClaimsOk, ScheduleOk, ProposalOk;
    hide ValidDecision, Names;
    var deed := DeedOf(s, now, CallFinalizePrimary(caseId));
    ClaimsStay(s.claims, deed);
    if s.activeCase.phase.Proposed? {
      if s.activeCase.caseType.Claims? {
        ApplyMovesClaims(s, deed);
      } else {
        FinishUntouched(s, now, s.activeCase.checkoutApproved);
      }
    }
  }

  lemma ResolveAccounts(s: State, sender: Address, now: nat, caseId: nat, result: seq<DecisionInput>, h: Hash)
    requires Inv(s) && ResolveFallback(s, sender, now, caseId, result, h).Done?
    ensures Accounts(s, ResolveFallback(s, sender, now, caseId, result, h).state, now,
                     CallResolveFallback(caseId, result, h))
  {
    hide ApplyDecision, Folded, ClaimsMove, TotalFrom, ClaimsOk, ScheduleOk, ProposalOk, ValidDecision, Names;
    ApplyMovesClaims(s.(decisions := result), DeedOf(s, now, CallResolveFallback(caseId, result, h)));
  }

  lemma CloseAccounts(s: State, now: nat)
    requires Inv(s) && CloseClaims(s, now).Done?
    ensures Accounts(s, CloseClaims(s, now).state, now, CallCloseClaims)
  {
    hide CloseClaimsInternal, Inv, ClaimsMove;
    var deed := DeedOf(s, now, CallCloseClaims);
    ClaimsStay(s.claims, deed);
    if !s.claimsClosed {
      OpenUnallocated(s);
      CloseMovesClaims(s, deed);
    }
  }

  lemma OpenUnallocated(s: State)
    requires Inv(s) && s.phase.ClaimsOpen?
    ensures s.accounting.unallocated > 0 && !s.claimsClosed
  {
    hide TotalFrom, ClaimsOk, CaseOk, ScheduleOk, ProposalOk;
  }

  lemma OpenForExpiryMoves(s: State)
    requires Inv(s) && s.accounting.unallocated > 0
    ensures OpenForExpiry(s).Done? && OpenForExpiry(s).state.claims == s.claims
    ensures OpenForExpiry(s).state.decisions == s.decisions
  {
    hide OpenForExpiry, Inv, Folded;
    OpenForExpiryForm(s);
    if !s.schedule.started {
      NoDecisions(s);
      NoDecisions(OpenForExpiry(s).state);
    }
  }

  lemma NoDecisions(s: State)
    requires Inv(s) && (!s.schedule.started || s.phase.ClaimsOpen?) && s.accounting.unallocated > 0
    ensures s.decisions == []
  {
    hide TotalFrom, ClaimsOk, CaseOk, ScheduleOk, ProposalOk;
  }

  lemma CloseStageClaims(s: State, deed: Deed)
    requires Inv(s) && Underway(s) && (s.phase.ClaimsOpen? ==> deed.closes)
    ensures CloseClaimsInternal(s).Done? && CloseClaimsInternal(s).state.decisions == s.decisions
    ensures ClaimsMove(s.claims, CloseClaimsInternal(s).state.claims, deed)
    ensures |CloseClaimsInternal(s).state.claims| == |s.claims|
    ensures s.phase.ClaimsOpen? || CloseClaimsInternal(s).state == s
    ensures s.phase.ClaimsOpen? ==> !CloseClaimsInternal(s).state.phase.ClaimCase?
  {
    hide TotalFrom, ClaimsOk, CaseOk, ScheduleOk, ProposalOk, Names, ClaimsMove;
    if s.phase.ClaimsOpen? {
      CloseMovesClaims(s, deed);
      CloseForm(s);
    } else {
      ClosedAlready(s);
      ClaimsStay(s.claims, deed);
    }
    hide CloseClaimsInternal;
  }

  lemma AwardStageClaims(s: State, now: nat, deed: Deed)
    requires Inv(s) && now >= s.terms.hardEndAt && s.claimsClosed && (Underway(s) || s.phase.Allocated?)
    requires UnchallengedProposal(s, now) ==> deed.award == s.decisions
    ensures AwardUnchallenged(s, now).Done?
    ensures ClaimsMove(s.claims, AwardUnchallenged(s, now).state.claims, deed)
  {
    hide TotalFrom, ClaimsOk, ScheduleOk, ProposalOk, ApplyDecision, ValidDecision, Names, ClaimsMove;
    AwardUnchallengedForm(s, now);
    ClaimsStay(s.claims, deed);
    if UnchallengedProposal(s, now) { ApplyMovesClaims(s, deed); }
  }

  lemma RestUntouched(s: State)
    requires RestToTenant(s).Done?
    ensures RestToTenant(s).state.claims == s.claims && RestToTenant(s).state.decisions == []
  {
    hide AllocateCredit, Folded;
    CreditUntouched(s, s.terms.tenant, s.accounting.unallocated, HardEnd);
  }

  lemma ExpireAccounts(s: State, now: nat)
    requires Inv(s) && ExpireEscrow(s, now).Done?
    ensures Accounts(s, ExpireEscrow(s, now).state, now, CallExpireEscrow)
  {
    hide Inv, OpenForExpiry, CloseClaimsInternal, AwardUnchallenged, RestToTenant, ClaimsMove, UnchallengedProposal;
    hide Names;
    var deed := DeedOf(s, now, CallExpireEscrow);
    ClaimsStay(s.claims, deed);
    if s.accounting.unallocated == 0 {
      UnallocatedExactly(s);
    } else {
      UnallocatedFunded(s);
      OpenForExpiryForm(s);
      OpenForExpiryMoves(s);
      var s1 := OpenForExpiry(s).state;
      ClosingAtExpiry(s, s1);
      CloseStage(s1);
      CloseStageClaims(s1, deed);
      var s2 := CloseClaimsInternal(s1).state;
      AwardUnchallengedForm(s2, now);
      AwardStageClaims(s2, now, deed);
      ClaimsMoveOn(s.claims, s2.claims, AwardUnchallenged(s2, now).state.claims, deed);
      RestUntouched(AwardUnchallenged(s2, now).state);
    }
  }

  /** Expiry closes the claims exactly when they are not closed yet. */
  lemma ClosingAtExpiry(s: State, s1: State)
    requires Inv(s) && Inv(s1) && s.accounting.unallocated > 0
    requires s.schedule.started ==> s1 == s
    ensures s1.phase.ClaimsOpen? ==> !s.claimsClosed
  {
    hide TotalFrom, ClaimsOk, CaseOk, ScheduleOk, ProposalOk, ValidDecision;
  }

  /** Every call accounts for what it makes of the claims. */
  lemma ExecAccounts(s: State, sender: Address, now: nat, call: Call)
    requires Inv(s) && Exec(s, sender, now, call).Done?
    ensures Accounts(s, Exec(s, sender, now, call).state, now, call)
  {
    hide Inv, Accounts, SubmitClaims, RespondClaim, WaiveClaim, CloseClaims, OpenClaimCase, ProposeDecision;
    hide FinalizePrimary, ResolveFallback, ExpireEscrow, Untouched;
    match call {
      case CallSubmitClaims(inputs) => SubmitAccounts(s, sender, now, inputs);
      case CallRespondClaim(id, accept, h) => RespondAccounts(s, sender, now, id, accept, h);
      case CallWaiveClaim(id) => WaiveAccounts(s, sender, now, id);
      case CallCloseClaims => CloseAccounts(s, now);
      case CallOpenClaimCase => OpenCaseAccounts(s, now);
      case CallProposeDecision(id, result, h) => ProposeAccounts(s, sender, now, id, result, h);
      case CallFinalizePrimary(id) => FinalizeAccounts(s, now, id);
      case CallResolveFallback(id, result, h) => ResolveAccounts(s, sender, now, id, result, h);
      case CallExpireEscrow => ExpireAccounts(s, now);
      case _ =>
        hide Exec;
        OtherUntouched(s, sender, now, call);
        UntouchedAccounts(s, Exec(s, sender, now, call).state, now, call);
    }
  }

  lemma OtherUntouched(s: State, sender: Address, now: nat, call: Call)
    requires Exec(s, sender, now, call).Done?
    requires !call.CallSubmitClaims? && !call.CallRespondClaim? && !call.CallWaiveClaim? && !call.CallCloseClaims?
             && !call.CallOpenClaimCase? && !call.CallProposeDecision? && !call.CallFinalizePrimary?
             && !call.CallResolveFallback? && !call.CallExpireEscrow?
    ensures Untouched(s, Exec(s, sender, now, call).state)
  {
    hide Exec, Untouched;
    if call.CallRespondCheckout? || call.CallStartScheduledSettlement? {
      OpeningCallUntouched(s, sender, now, call);
    } else if call.CallOpenCheckoutCase? || call.CallProposeCheckoutDecision? || call.CallChallenge?
              || call.CallEscalateTimeout? {
      CaseCallUntouched(s, sender, now, call);
    } else if call.CallResolveFallbackCheckout? || call.CallMarkServiceTimeout? || call.CallFinalizeTimeout?
              || call.CallConfirmSettlement? {
      EndingCallUntouched(s, sender, now, call);
    } else {
      LeaseCallUntouched(s, sender, now, call);
    }
  }

  // ---------- along a run ----------

  /** A call that succeeded, and the state it was made in. */
  datatype Act = Act(before: State, tx: Tx)

  /** The history of a run: the calls that succeeded, in order. */
  function Executed(s: State, txs: seq<Tx>): seq<Act>
    decreases |txs|
  {
    if txs == [] then []
    else
      var rest := Executed(Step(s, txs[0]), txs[1..]);
      if Exec(s, txs[0].sender, txs[0].now, txs[0].call).Done? then [Act(s, txs[0])] + rest else rest
  }

  function Calls(h: seq<Act>): seq<Tx> {
    seq(|h|, i requires 0 <= i < |h| => h[i].tx)
  }

  /** The successful calls alone make the same run, and each was made in the state the ones before it left. */
  lemma {:induction false} ExecutedReplays(s: State, txs: seq<Tx>, j: nat)
    requires j <= |Executed(s, txs)|
    ensures var h := Executed(s, txs);
      Run(s, Calls(h)[..j]) == if j < |h| then h[j].before else Run(s, txs)
    decreases |txs|
  {
    hide Exec;
    if txs != [] {
      var tx := txs[0];
      var h := Executed(s, txs);
      if !Exec(s, tx.sender, tx.now, tx.call).Done? {
        ExecutedReplays(s, txs[1..], j);
      } else if j > 0 {
        var rest := Executed(Step(s, tx), txs[1..]);
        ExecutedReplays(Step(s, tx), txs[1..], j - 1);
        assert Calls(h)[..j][1..] == Calls(rest)[..j - 1];
      }
    }
  }

  /** Here the tenant accepts the claim. */
  predicate AcceptsClaim(act: Act, claimId: nat) {
    claimId > 0 && AcceptedBy(act.tx.call) == claimId && act.tx.sender == act.before.terms.tenant
  }

  predicate AcceptedBefore(h: seq<Act>, j: nat, claimId: nat)
    requires j <= |h|
  {
    exists a :: 0 <= a < j && AcceptsClaim(h[a], claimId)
  }

  /** The primary resolver proposed the vector in act `a`, and up to act `j` it stayed stored: nobody challenged it. */
  predicate StandsFrom(h: seq<Act>, a: nat, j: nat, vector: seq<DecisionInput>)
    requires a < j <= |h|
  {
    && h[a].tx.call.CallProposeDecision? && h[a].tx.call.result == vector
    && h[a].tx.sender == h[a].before.terms.primaryResolver
    && forall m :: a < m < j ==> h[m].before.decisions == vector
  }

  predicate Stands(h: seq<Act>, j: nat, vector: seq<DecisionInput>)
    requires j <= |h|
  {
    exists a :: 0 <= a < j && StandsFrom(h, a, j, vector)
  }

  /** Act `j` gives the landlord that amount of claim `i`, which had given him nothing: the tenant accepts the claim
      after closing; or it closes the claims, and the tenant had accepted this one; or the fallback resolver awards
      the amount; or it carries out the primary resolver's proposal, still standing with its window over, that does. */
  predicate GivesAt(h: seq<Act>, j: nat, i: nat, amount: nat)
    requires j < |h|
  {
    var s := h[j].before;
    var tx := h[j].tx;
    && i < |s.claims| && s.claims[i].landlordAllocated == 0
    && (|| (AcceptsClaim(h[j], i + 1) && s.claimsClosed && amount == s.claims[i].amount)
        || (Closes(s, tx.call) && s.claims[i].status.Accepted? && amount == s.claims[i].amount
            && AcceptedBefore(h, j, i + 1))
        || (tx.call.CallResolveFallback? && tx.sender == s.terms.fallbackResolver
            && Names(tx.call.result, i + 1, amount))
        || ((tx.call.CallFinalizePrimary? || tx.call.CallExpireEscrow?) && UnchallengedProposal(s, tx.now)
            && Names(s.decisions, i + 1, amount) && Stands(h, j, s.decisions)))
  }

  predicate Given(h: seq<Act>, i: nat, amount: nat) {
    exists j :: 0 <= j < |h| && GivesAt(h, j, i, amount)
  }

  predicate ClaimExplained(c: Claim, i: nat, h: seq<Act>) {
    && (c.status.Accepted? ==> AcceptedBefore(h, |h|, i + 1))
    && (c.landlordAllocated > 0 ==> Given(h, i, c.landlordAllocated))
  }

  /** The history explains every acceptance, every amount given, and the vector still stored. */
  predicate Explained(s: State, h: seq<Act>) {
    && (forall i :: 0 <= i < |s.claims| ==> ClaimExplained(s.claims[i], i, h))
    && (s.decisions != [] && !Final(s) ==> Stands(h, |h|, s.decisions))
  }

  /** Only the tenant accepts; only the resolvers bring vectors; the fallback resolver's ends the claims; terms stay. */
  lemma WhoDecides(s: State, sender: Address, now: nat, call: Call)
    requires Inv(s) && Exec(s, sender, now, call).Done?
    ensures Exec(s, sender, now, call).state.terms == s.terms
    ensures Final(s) ==> Final(Exec(s, sender, now, call).state)
    ensures AcceptedBy(call) > 0 ==> sender == s.terms.tenant
    ensures call.CallProposeDecision? ==> sender == s.terms.primaryResolver
    ensures call.CallResolveFallback? ==>
      sender == s.terms.fallbackResolver && Final(Exec(s, sender, now, call).state)
  {
    hide Inv, Evolves;
    ExecEvolves(s, sender, now, call);
    Deciders(s, sender, now, call);
    hide Exec;
    assert Evolves(s, Exec(s, sender, now, call).state);
    EvolvesSame(s, Exec(s, sender, now, call).state);
  }

  lemma EvolvesSame(s: State, t: State)
    requires Evolves(s, t)
    ensures t.terms == s.terms && (Final(s) ==> Final(t))
  {
  }

  lemma Deciders(s: State, sender: Address, now: nat, call: Call)
    requires Exec(s, sender, now, call).Done?
    ensures AcceptedBy(call) > 0 ==> sender == s.terms.tenant
    ensures call.CallProposeDecision? ==> sender == s.terms.primaryResolver
    ensures call.CallResolveFallback? ==>
      sender == s.terms.fallbackResolver && Final(Exec(s, sender, now, call).state)
  {
    if call.CallRespondClaim? {
      hide AllocateClaimToLandlord, RefreshAllocationPhase, Folded, IsOpen;
    } else if call.CallProposeDecision? {
      hide ValidDecision, RecordPrimaryProposal, Folded;
    } else if call.CallResolveFallback? {
      hide ValidDecision, ApplyDecision, Folded;
    } else {
      hide Exec;
    }
  }

  /** A longer history explains what a shorter one did. */
  lemma LongerAccepted(h: seq<Act>, more: seq<Act>, j: nat, claimId: nat)
    requires j <= |h|
    ensures AcceptedBefore(h, j, claimId) ==> AcceptedBefore(h + more, j, claimId)
    ensures AcceptedBefore(h, j, claimId) ==> AcceptedBefore(h + more, |h + more|, claimId)
  {
    if AcceptedBefore(h, j, claimId) {
      var a :| 0 <= a < j && AcceptsClaim(h[a], claimId);
      assert (h + more)[a] == h[a];
    }
  }

  lemma LongerStands(h: seq<Act>, more: seq<Act>, j: nat, vector: seq<DecisionInput>)
    requires j <= |h|
    ensures Stands(h, j, vector) ==> Stands(h + more, j, vector)
  {
    if Stands(h, j, vector) {
      var a :| 0 <= a < j && StandsFrom(h, a, j, vector);
      assert forall m :: 0 <= m < |h| ==> (h + more)[m] == h[m];
      assert StandsFrom(h + more, a, j, vector);
    }
  }

  lemma LongerGiven(h: seq<Act>, more: seq<Act>, i: nat, amount: nat)
    ensures Given(h, i, amount) ==> Given(h + more, i, amount)
  {
    hide AcceptedBefore, Stands, Names, UnchallengedProposal;
    if Given(h, i, amount) {
      var j :| 0 <= j < |h| && GivesAt(h, j, i, amount);
      assert (h + more)[j] == h[j];
      LongerAccepted(h, more, j, i + 1);
      LongerStands(h, more, j, h[j].before.decisions);
      assert GivesAt(h + more, j, i, amount);
    }
  }

  /** A stored vector stands on when a call leaves it. */
  lemma StandsOn(s: State, h: seq<Act>, tx: Tx)
    requires Stands(h, |h|, s.decisions)
    ensures Stands(h + [Act(s, tx)], |h| + 1, s.decisions)
  {
    var a :| 0 <= a < |h| && StandsFrom(h, a, |h|, s.decisions);
    var h' := h + [Act(s, tx)];
    assert forall m :: 0 <= m < |h| ==> h'[m] == h[m];
    assert StandsFrom(h', a, |h| + 1, s.decisions);
  }

  /** On its grounds, a call gives the landlord a claim for a reason the history shows. */
  lemma GroundsGive(s: State, h: seq<Act>, tx: Tx, i: nat, amount: nat)
    requires Inv(s) && Explained(s, h) && Exec(s, tx.sender, tx.now, tx.call).Done?
    requires i < |s.claims| && s.claims[i].id == i + 1 && s.claims[i].landlordAllocated == 0
    requires Grounds(s.claims[i], amount, DeedOf(s, tx.now, tx.call), AcceptedBy(tx.call) == i + 1)
    ensures Given(h + [Act(s, tx)], i, amount)
  {
    hide Exec, Inv, AcceptedBefore, Stands, Names;
    WhoDecides(s, tx.sender, tx.now, tx.call);
    var h' := h + [Act(s, tx)];
    assert h'[|h|] == Act(s, tx);
    LongerAccepted(h, [Act(s, tx)], |h|, i + 1);
    LongerStands(h, [Act(s, tx)], |h|, s.decisions);
    UnchallengedStored(s, tx.now);
    NothingNamed(i + 1, amount);
    assert ClaimExplained(s.claims[i], i, h);
    assert GivesAt(h', |h|, i, amount);
  }

  lemma NothingNamed(claimId: nat, amount: nat)
    ensures !Names([], claimId, amount)
  {
  }

  /** A proposal that can be carried out is stored, in a lease that is not over. */
  lemma UnchallengedStored(s: State, now: nat)
    requires Inv(s)
    ensures UnchallengedProposal(s, now) ==> s.decisions != [] && !Final(s)
  {
    hide TotalFrom, ClaimsOk, ScheduleOk, ProposalOk, Lockstep, DisputedFrom;
  }

  lemma ClaimStaysExplained(s: State, h: seq<Act>, tx: Tx, i: nat, d: Claim)
    requires Inv(s) && Explained(s, h) && Exec(s, tx.sender, tx.now, tx.call).Done?
    requires i < |s.claims| && s.claims[i].id == i + 1
    requires ClaimMoves(s.claims[i], d, DeedOf(s, tx.now, tx.call), AcceptedBy(tx.call) == i + 1)
    ensures ClaimExplained(d, i, h + [Act(s, tx)])
  {
    hide Exec, Inv, Given, Grounds, DeedOf;
    var act := Act(s, tx);
    assert ClaimExplained(s.claims[i], i, h);
    WhoDecides(s, tx.sender, tx.now, tx.call);
    LongerAccepted(h, [act], |h|, i + 1);
    assert (h + [act])[|h|] == act;
    if d.landlordAllocated == s.claims[i].landlordAllocated {
      LongerGiven(h, [act], i, d.landlordAllocated);
    } else {
      GroundsGive(s, h, tx, i, d.landlordAllocated);
    }
  }

  /** The vector stored after a call was stored and stands on, or is the primary resolver's new proposal. */
  lemma VectorExplained(s: State, h: seq<Act>, tx: Tx)
    requires Inv(s) && Explained(s, h) && Exec(s, tx.sender, tx.now, tx.call).Done?
    requires Accounts(s, Exec(s, tx.sender, tx.now, tx.call).state, tx.now, tx.call)
    ensures var t := Exec(s, tx.sender, tx.now, tx.call).state;
      t.decisions != [] && !Final(t) ==> Stands(h + [Act(s, tx)], |h| + 1, t.decisions)
  {
    hide Exec, Inv, ClaimsMove, ClaimExplained;
    var t := Exec(s, tx.sender, tx.now, tx.call).state;
    WhoDecides(s, tx.sender, tx.now, tx.call);
    if t.decisions != [] && !Final(t) {
      if t.decisions == s.decisions {
        StandsOn(s, h, tx);
      } else {
        assert (h + [Act(s, tx)])[|h|] == Act(s, tx);
        assert StandsFrom(h + [Act(s, tx)], |h|, |h| + 1, t.decisions);
      }
    }
  }

  lemma StepExplained(s: State, h: seq<Act>, tx: Tx)
    requires Inv(s) && Explained(s, h) && Exec(s, tx.sender, tx.now, tx.call).Done?
    ensures Explained(Exec(s, tx.sender, tx.now, tx.call).state, h + [Act(s, tx)])
  {
    ClaimNumbers(s);
    hide Exec, Inv, Stands, ClaimMoves, AcceptedBefore, Given;
    var t := Exec(s, tx.sender, tx.now, tx.call).state;
    ExecAccounts(s, tx.sender, tx.now, tx.call);
    VectorExplained(s, h, tx);
    forall i | 0 <= i < |t.claims| ensures ClaimExplained(t.claims[i], i, h + [Act(s, tx)]) {
      if i < |s.claims| { ClaimStaysExplained(s, h, tx, i, t.claims[i]); }
    }
  }

  lemma ClaimNumbers(s: State)
    requires Inv(s)
    ensures forall i :: 0 <= i < |s.claims| ==> s.claims[i].id == i + 1
  {
    hide PhaseOk, CaseOk, ScheduleOk, ProposalOk, TotalFrom;
  }

  /** Along every run: the calls that succeeded explain every claim that gave the landlord anything. */
  lemma {:induction false} RunExplained(s: State, past: seq<Act>, txs: seq<Tx>)
    requires Inv(s) && Explained(s, past)
    ensures Explained(Run(s, txs), past + Executed(s, txs))
    decreases |txs|
  {
    hide Inv, Exec, Explained;
    if txs == [] {
      assert past + Executed(s, txs) == past;
    } else {
      var tx := txs[0];
      var rest := Executed(Step(s, tx), txs[1..]);
      if Exec(s, tx.sender, tx.now, tx.call).Done? {
        ExecKeeps(s, tx.sender, tx.now, tx.call);
        StepExplained(s, past, tx);
        RunExplained(Step(s, tx), past + [Act(s, tx)], txs[1..]);
        assert past + [Act(s, tx)] + rest == past + Executed(s, txs);
      } else {
        RunExplained(s, past, txs[1..]);
        assert past + rest == past + Executed(s, txs);
      }
    }
  }

  /** From deployment on: a claim that has given the landlord anything has given at most its amount, and a call that
      succeeded gave it, on the tenant's acceptance or by an award carried out. */
  lemma ClaimsExplained(t: Terms, factory: Address, start: nat, txs: seq<Tx>, i: nat)
    requires Deploy(t, factory, start).Done? && i < |Run(Deploy(t, factory, start).state, txs).claims|
    requires Run(Deploy(t, factory, start).state, txs).claims[i].landlordAllocated > 0
    ensures var s := Deploy(t, factory, start).state;
      var c := Run(s, txs).claims[i];
      c.landlordAllocated <= c.amount && Given(Executed(s, txs), i, c.landlordAllocated)
  {
    hide Inv, Run, Deploy, Given, AcceptedBefore, Stands;
    DeployEstablishes(t, factory, start);
    DeployExplained(t, factory, start);
    var s := Deploy(t, factory, start).state;
    RunExplained(s, [], txs);
    assert [] + Executed(s, txs) == Executed(s, txs);
    RunKeeps(s, txs);
    WithinClaim(Run(s, txs), i);
    assert ClaimExplained(Run(s, txs).claims[i], i, Executed(s, txs));
  }

  lemma DeployExplained(t: Terms, factory: Address, start: nat)
    requires Deploy(t, factory, start).Done?
    ensures Explained(Deploy(t, factory, start).state, [])
  {
    hide CheckTerms;
  }

  lemma WithinClaim(s: State, i: nat)
    requires Inv(s) && i < |s.claims|
    ensures s.claims[i].landlordAllocated <= s.claims[i].amount
  {
    hide PhaseOk, CaseOk, ScheduleOk, ProposalOk, TotalFrom;
  }
}
