/** Where the money is: what the events record, what the landlord got and why, and whole business units. */
module EscrowAudit {
  import opened RentBondRules
  import opened EscrowTypes
  import opened ClaimTotals
  import opened EventLog
  import opened EscrowSpec
  import opened EscrowLoops
  import opened EscrowInvariant
  import opened EscrowPreservation

  /** A call that moves no money: balances and what claims gave the landlord stay, no money event is logged. */
  predicate Quiet(s: State, t: State) {
    && t.terms == s.terms && t.accounting == s.accounting.(revision := t.accounting.revision)
    && SameClaimShares(s.claims, t.claims) && SameBooks(s.log, t.log, s.terms.tenant)
  }

  predicate SameClaimShares(cs: seq<Claim>, ds: seq<Claim>) {
    TotalFrom(cs, 0, LandlordPart) == TotalFrom(ds, 0, LandlordPart)
  }

  predicate SameBooks(log: seq<Event>, log': seq<Event>, tenant: Address) {
    Folded(log', tenant) == Folded(log, tenant)
  }

  lemma AcceptTermsQuiet(s: State, sender: Address, now: nat, h: Hash)
    requires AcceptTerms(s, sender, now, h).Done?
    ensures Quiet(s, AcceptTerms(s, sender, now, h).state)
  {
    hide Folded, TotalFrom, LogAgrees;
  }

  lemma CancelUnfundedQuiet(s: State, sender: Address)
    requires CancelUnfunded(s, sender).Done?
    ensures Quiet(s, CancelUnfunded(s, sender).state)
  {
    hide Folded, TotalFrom, LogAgrees;
  }

  lemma ExpireUnfundedQuiet(s: State, sender: Address, now: nat)
    requires ExpireUnfunded(s, sender, now).Done?
    ensures Quiet(s, ExpireUnfunded(s, sender, now).state)
  {
    hide Folded, TotalFrom, LogAgrees;
  }

  lemma RequestCheckoutQuiet(s: State, sender: Address, now: nat, h: Hash)
    requires RequestCheckout(s, sender, now, h).Done?
    ensures Quiet(s, RequestCheckout(s, sender, now, h).state)
  {
    hide Folded, TotalFrom, LogAgrees;
  }

  lemma RespondCheckoutQuiet(s: State, sender: Address, now: nat, agree: bool, h: Hash)
    requires RespondCheckout(s, sender, now, agree, h).Done?
    ensures Quiet(s, RespondCheckout(s, sender, now, agree, h).state)
  {
    hide Folded, TotalFrom, LogAgrees;
  }

  lemma OpenCheckoutCaseQuiet(s: State, now: nat)
    requires OpenCheckoutCase(s, now).Done?
    ensures Quiet(s, OpenCheckoutCase(s, now).state)
  {
    hide Folded, TotalFrom, LogAgrees;
  }

  lemma StartScheduledSettlementQuiet(s: State, now: nat)
    requires StartScheduledSettlement(s, now).Done?
    ensures Quiet(s, StartScheduledSettlement(s, now).state)
  {
    hide Folded, TotalFrom, LogAgrees, StartClaims, InvalidateCheckoutCase;
    if !s.schedule.started {
      var s1 := InvalidateSettlement(s);
      InvalidateCheckoutQuiet(s1);
      StartClaimsQuiet(InvalidateCheckoutCase(s1), s.terms.leaseEndAt);
    }
  }

  lemma InvalidateCheckoutQuiet(s: State)
    ensures Quiet(s, InvalidateCheckoutCase(s))
  {
    hide Folded, TotalFrom;
  }

  lemma StartClaimsQuiet(s: State, at: nat)
    requires StartClaims(s, at).Done?
    ensures Quiet(s, StartClaims(s, at).state)
  {
    hide Folded, TotalFrom;
  }

  lemma ProposeDecisionQuiet(s: State, sender: Address, now: nat, caseId: nat, result: seq<DecisionInput>, h: Hash)
    requires ProposeDecision(s, sender, now, caseId, result, h).Done?
    ensures Quiet(s, ProposeDecision(s, sender, now, caseId, result, h).state)
  {
    hide Folded, TotalFrom, LogAgrees;
  }

  lemma ProposeCheckoutDecisionQuiet(s: State, sender: Address, now: nat, caseId: nat, approved: bool, h: Hash)
    requires ProposeCheckoutDecision(s, sender, now, caseId, approved, h).Done?
    ensures Quiet(s, ProposeCheckoutDecision(s, sender, now, caseId, approved, h).state)
  {
    hide Folded, TotalFrom, LogAgrees;
  }

  lemma ChallengeQuiet(s: State, sender: Address, now: nat, caseId: nat, h: Hash)
    requires Challenge(s, sender, now, caseId, h).Done?
    ensures Quiet(s, Challenge(s, sender, now, caseId, h).state)
  {
    hide Folded, TotalFrom, LogAgrees;
  }

  lemma EscalateTimeoutQuiet(s: State, sender: Address, now: nat, caseId: nat)
    requires EscalateTimeout(s, sender, now, caseId).Done?
    ensures Quiet(s, EscalateTimeout(s, sender, now, caseId).state)
  {
    hide Folded, TotalFrom, LogAgrees;
  }

  lemma ResolveFallbackCheckoutQuiet(s: State, sender: Address, now: nat, caseId: nat, approved: bool, h: Hash)
    requires ResolveFallbackCheckout(s, sender, now, caseId, approved, h).Done?
    ensures Quiet(s, ResolveFallbackCheckout(s, sender, now, caseId, approved, h).state)
  {
    hide Folded, TotalFrom, LogAgrees, FinishCheckoutCase;
    FinishCheckoutQuiet(
      s.(activeCase := s.activeCase.(proposalHash := h, decisionHash := CheckoutDigest(caseId, approved, h),
                                     checkoutApproved := approved)), now, approved);
  }

  lemma MarkServiceTimeoutQuiet(s: State, now: nat, caseId: nat)
    requires MarkServiceTimeout(s, now, caseId).Done?
    ensures Quiet(s, MarkServiceTimeout(s, now, caseId).state)
  {
    hide Folded, TotalFrom, LogAgrees, FinishCheckoutCase;
    if s.activeCase.phase.Fallback? && s.activeCase.caseType.Checkout? {
      var at := s.activeCase.fallbackDeadline;
      FinishCheckoutQuiet(Emit(s.(activeCase := s.activeCase.(timeoutAt := at)), ServiceTimedOut(caseId, at)),
                          now, false);
    }
  }

  lemma ProposeSettlementQuiet(s: State, sender: Address, now: nat, tenantShare: nat, landlordShare: nat, revision: nat,
      validUntil: nat, h: Hash)
    requires ProposeSettlement(s, sender, now, tenantShare, landlordShare, revision, validUntil, h).Done?
    ensures Quiet(s, ProposeSettlement(s, sender, now, tenantShare, landlordShare, revision, validUntil, h).state)
  {
    hide Folded, TotalFrom, LogAgrees;
  }

  // ---------- calls on the claim table that move no money yet ----------

  /** A claim that is not allocated has given nobody anything. */
  lemma RestatusShares(cs: seq<Claim>, k: nat, c: Claim)
    requires k < |cs| && c.landlordAllocated == cs[k].landlordAllocated
    ensures SameClaimShares(cs, cs[k := c])
  {
    TotalUpdate(cs, 0, k, c, LandlordPart);
  }

  lemma {:induction false} NewClaimsShares(inputs: seq<ClaimInput>, i: nat)
    ensures TotalFrom(NewClaims(inputs), i, LandlordPart) == 0
    decreases |inputs| - i
  {
    if i < |inputs| { NewClaimsShares(inputs, i + 1); }
  }

  lemma SubmitClaimsQuiet(s: State, sender: Address, now: nat, inputs: seq<ClaimInput>)
    requires Inv(s) && SubmitClaims(s, sender, now, inputs).Done?
    ensures Quiet(s, SubmitClaims(s, sender, now, inputs).state)
  {
    hide Folded, TotalFrom, CheckInputs, InputTotal, CaseOk, ScheduleOk, ProposalOk, LogAgrees;
    NewClaimsShares(inputs, 0);
    NewClaimsShares([], 0);
    assert NewClaims([]) == [];
    assert s.claims + NewClaims(inputs) == NewClaims(inputs);
  }

  lemma ReviewedUnpending(s: State)
    requires Inv(s) && s.phase.ClaimsReview?
    ensures ContestAll(s.claims) == s.claims
  {
    hide TotalFrom, ClaimsOk, CaseOk, ScheduleOk, ProposalOk, ContestAll;
    ContestNothing(s);
  }

  lemma OpenClaimCaseQuiet(s: State, now: nat)
    requires Inv(s) && OpenClaimCase(s, now).Done?
    ensures Quiet(s, OpenClaimCase(s, now).state)
  {
    hide Folded, TotalFrom, ContestAll, Inv, ScheduleOk;
    ReviewedUnpending(s);
  }

  // ---------- calls that pay out ----------

  /** A pay-out: unallocated funds became credits in whole business units, logged as such, and the
      landlord's credit grew by exactly what claims and a confirmed settlement newly gave him. */
  predicate Moves(s: State, t: State, settlements: nat) {
    && t.terms == s.terms
    && CreditsGrow(s.accounting, t.accounting)
    && (LogAgrees(s.log, s.terms.tenant, s.accounting) ==> LogAgrees(t.log, s.terms.tenant, t.accounting))
    && Folded(t.log, s.terms.tenant).settlements == Folded(s.log, s.terms.tenant).settlements + settlements
    && LandlordGap(t) == LandlordGap(s)
  }

  predicate CreditsGrow(a: Accounting, b: Accounting) {
    && b.fundedAmount == a.fundedAmount && b.tenantWithdrawn == a.tenantWithdrawn
    && b.landlordWithdrawn == a.landlordWithdrawn
    && a.tenantCredit <= b.tenantCredit && Whole(b.tenantCredit - a.tenantCredit)
    && a.landlordCredit <= b.landlordCredit && Whole(b.landlordCredit - a.landlordCredit)
    && b.unallocated + b.tenantCredit + b.landlordCredit == a.unallocated + a.tenantCredit + a.landlordCredit
  }

  predicate Whole(amount: int) {
    amount % BUSINESS_UNIT == 0
  }

  /** What the landlord has that neither his claims nor a settlement explains. */
  function LandlordGap(s: State): int {
    s.accounting.landlordCredit + s.accounting.landlordWithdrawn
    - TotalFrom(s.claims, 0, LandlordPart) - Folded(s.log, s.terms.tenant).settledToLandlord
  }

  lemma QuietMoves(s: State, t: State)
    requires Quiet(s, t)
    ensures Moves(s, t, 0)
  {
    hide Folded, TotalFrom;
    RevisionUnlogged(s.log, s.terms.tenant, s.accounting, t.accounting.revision);
  }

  /** Pay-outs described by `Paid` and `LogKept` are pay-outs in this sense. */
  lemma PaidMoves(s: State, t: State, toTenant: nat, toLandlord: nat)
    requires t.terms == s.terms && t.accounting.fundedAmount == s.accounting.fundedAmount
    requires t.accounting.tenantWithdrawn == s.accounting.tenantWithdrawn
    requires t.accounting.landlordWithdrawn == s.accounting.landlordWithdrawn
    requires Paid(s, t, toTenant, toLandlord) && LogKept(s, t)
    requires Whole(toTenant) && Whole(toLandlord)
    requires TotalFrom(t.claims, 0, LandlordPart) == TotalFrom(s.claims, 0, LandlordPart) + toLandlord
    ensures Moves(s, t, 0)
  {
    hide Folded, TotalFrom, LogAgrees;
  }

  /** Sums of whole claims are whole. */
  lemma {:induction false} TotalWhole(cs: seq<Claim>, i: nat, p: Part)
    requires forall j :: i <= j < |cs| ==> Whole(PartOf(cs[j], p))
    ensures Whole(TotalFrom(cs, i, p))
    decreases |cs| - i
  {
    if i < |cs| { TotalWhole(cs, i + 1, p); }
  }

  lemma {:induction false} AwardsWhole(ds: seq<DecisionInput>, cs: seq<Claim>, k: nat)
    requires Lockstep(ds, cs)
    ensures Whole(AwardsFrom(ds, k))
    decreases |ds| - k
  {
    if k < |ds| {
      assert Answers(ds[k], cs[k]);
      AwardsWhole(ds, cs, k + 1);
    }
  }

  lemma {:induction false} SettledShares(cs: seq<Claim>, i: nat)
    requires NoneAllocated(cs, 0) && forall j :: 0 <= j < |cs| ==> ClaimOk(cs[j])
    ensures TotalFrom(SettledFrom(cs, 0), i, LandlordPart)
         == TotalFrom(cs, i, LandlordPart) + TotalFrom(cs, i, AcceptedPart)
    decreases |cs| - i
  {
    if i < |cs| { SettledShares(cs, i + 1); }
  }

  lemma CloseWhole(s: State)
    requires Inv(s) && s.phase.ClaimsOpen?
    ensures Whole(s.accounting.fundedAmount - s.totalClaimAmount + TotalFrom(s.claims, 0, WaivedPart))
    ensures Whole(TotalFrom(s.claims, 0, AcceptedPart))
  {
    TotalWhole(s.claims, 0, WaivedPart);
    TotalWhole(s.claims, 0, AcceptedPart);
    TotalWhole(s.claims, 0, AmountPart);
    hide TotalFrom, CaseOk, ScheduleOk, ProposalOk;
  }

  lemma CloseMoves(s: State)
    requires Inv(s) && s.phase.ClaimsOpen?
    ensures CloseClaimsInternal(s).Done? && Moves(s, CloseClaimsInternal(s).state, 0)
  {
    hide CloseClaimsInternal, TotalFrom, SettledFrom, Whole, LogKept, Moves, CaseOk, ScheduleOk, ProposalOk;
    SettledShares(s.claims, 0);
    hide Inv;
    CloseWhole(s);
    CloseForm(s);
    PaidMoves(s, CloseClaimsInternal(s).state,
              s.accounting.fundedAmount - s.totalClaimAmount + TotalFrom(s.claims, 0, WaivedPart),
              TotalFrom(s.claims, 0, AcceptedPart));
  }

  lemma {:induction false} AwardedShares(cs: seq<Claim>, i: nat, ds: seq<DecisionInput>, k: nat)
    requires LockstepFrom(ds, k, cs, i)
    requires forall j :: i <= j < |cs| && cs[j].status.Disputed? ==> cs[j].landlordAllocated == 0
    ensures TotalFrom(AwardedFrom(cs, i, ds, k), 0, LandlordPart)
         == TotalFrom(cs, 0, LandlordPart) + AwardsFrom(ds, k)
    decreases |cs| - i
  {
    if i >= |cs| {
      LockstepEnd(cs, i, ds, k);
    } else if cs[i].status.Disputed? {
      LockstepHead(cs, i, ds, k);
      var c := Award(cs[i], ds[k].landlordAmount);
      TotalUpdate(cs, 0, i, c, LandlordPart);
      AwardedShares(cs[i := c], i + 1, ds, k + 1);
    } else {
      AwardedShares(cs, i + 1, ds, k);
    }
  }

  lemma ApplyWhole(s: State)
    requires Base(s) && InReview(s) && ValidDecision(s.claims, s.decisions)
    ensures Whole(s.accounting.unallocated - AwardsFrom(s.decisions, 0)) && Whole(AwardsFrom(s.decisions, 0))
  {
    AwardsWhole(s.decisions, DisputedFrom(s.claims, 0), 0);
    TotalWhole(s.claims, 0, DisputedPart);
    hide TotalFrom, AwardsFrom, CaseOk, ScheduleOk, ProposalOk, ValidDecision;
  }

  lemma ApplyMoves(s: State)
    requires Base(s) && InReview(s) && ValidDecision(s.claims, s.decisions)
    requires s.activeCase.disputedAmount == s.accounting.unallocated
    ensures ApplyDecision(s).Done? && Moves(s, ApplyDecision(s).state, 0)
  {
    hide ApplyDecision, TotalFrom, AwardsFrom, AwardedFrom, LogKept, LockstepFrom, Whole, Moves;
    hide CaseOk, ScheduleOk, ProposalOk, ValidDecision;
    ApplyWhole(s);
    ApplyForm(s);
    AwardedShares(s.claims, 0, s.decisions, 0);
    hide Base;
    PaidMoves(s, ApplyDecision(s).state, s.accounting.unallocated - AwardsFrom(s.decisions, 0),
              AwardsFrom(s.decisions, 0));
  }

  lemma MovesTrans(s: State, t: State, u: State, m: nat, n: nat)
    requires Moves(s, t, m) && Moves(t, u, n)
    ensures Moves(s, u, m + n)
  {
    hide Folded, TotalFrom, LogAgrees, LandlordGap;
  }

  lemma EmitQuiet(s: State, e: Event)
    requires Neutral(e)
    ensures Quiet(s, Emit(s, e))
  {
    hide TotalFrom, Folded;
  }

  lemma InvalidateQuiet(s: State)
    ensures Quiet(s, InvalidateSettlement(s))
  {
    hide TotalFrom, Folded;
  }

  /** Paying an accepted or waived claim out of review. */
  lemma TakeOutMoves(s: State, k: nat, mid: Claim, accepted: bool)
    requires Inv(s) && s.phase.ClaimsReview? && k < |s.claims| && s.claims[k].status.Disputed?
    requires !mid.status.Allocated? && mid.amount == s.claims[k].amount
    requires mid.landlordAllocated == 0 && mid.tenantAllocated == 0
    ensures var s1 := s.(claims := s.claims[k := mid]);
            var o := if accepted then AllocateClaimToLandlord(s1, k) else AllocateClaimToTenant(s1, k);
            o.Done? && Moves(s, RefreshAllocationPhase(o.state), 0)
  {
    hide AllocateCredit, TotalFrom, LogGrows, Moves, IsOpen, CaseOk, ScheduleOk, ProposalOk, Lockstep;
    var out := if accepted then ToLandlord(mid) else ToTenant(mid);
    ReviewedOut(s, k, s.claims[k], ToTenant(s.claims[k]));
    assert s.claims[k].landlordAllocated == 0 && Whole(mid.amount);
    assert s.claims[k := s.claims[k]] == s.claims;
    var s1 := s.(claims := s.claims[k := mid]);
    TotalUpdate(s.claims, 0, k, out, LandlordPart);
    assert s.claims[k := mid][k := out] == s.claims[k := out];
    hide Inv, Whole, ClaimsOk;
    CreditForm(s1, if accepted then s.terms.landlord else s.terms.tenant, mid.amount,
               if accepted then AcceptedClaim else WaivedClaim);
    var o := if accepted then AllocateClaimToLandlord(s1, k) else AllocateClaimToTenant(s1, k);
    PaidMoves(s, RefreshAllocationPhase(o.state), if accepted then 0 else mid.amount,
              if accepted then mid.amount else 0);
  }

  lemma RespondClaimMoves(s: State, sender: Address, now: nat, claimId: nat, accept: bool, h: Hash)
    requires Inv(s) && RespondClaim(s, sender, now, claimId, accept, h).Done?
    ensures Moves(s, RespondClaim(s, sender, now, claimId, accept, h).state, 0)
  {
    hide Moves, Folded, TotalFrom, CaseOk, ScheduleOk, ProposalOk, RefreshAllocationPhase, AllocateCredit;
    var k := claimId - 1;
    var c := s.claims[k].(status := if accept then ClaimStatus.Accepted else ClaimStatus.Disputed,
                          responseCommitment := h);
    var e := ClaimResponded(claimId, accept, h);
    var s1 := s.(claims := s.claims[k := c]);
    if s.claimsClosed && accept {
      TakeOutMoves(s, k, c, true);
      PaidThenLogged(s, RefreshAllocationPhase(AllocateClaimToLandlord(s1, k).state), e);
    } else {
      RestatusShares(s.claims, k, c);
      RestatusMoves(s, s1, e);
    }
    hide Inv, AllocateClaimToLandlord, InvalidateSettlement;
  }

  lemma PaidThenLogged(s: State, t: State, e: Event)
    requires Moves(s, t, 0) && Neutral(e)
    ensures Moves(s, Emit(t, e), 0)
  {
    hide Moves, Folded, TotalFrom, Quiet, Absorb;
    EmitQuiet(t, e);
    QuietMoves(t, Emit(t, e));
    MovesTrans(s, t, Emit(t, e), 0, 0);
  }

  /** Changing a claim's status, without allocating it, moves no money. */
  lemma RestatusMoves(s: State, s1: State, e: Event)
    requires s1 == s.(claims := s1.claims) && SameClaimShares(s.claims, s1.claims) && Neutral(e)
    ensures Moves(s, Emit(RefreshAllocationPhase(InvalidateSettlement(s1)), e), 0)
  {
    hide Folded, TotalFrom, IsOpen;
    var t := Emit(RefreshAllocationPhase(InvalidateSettlement(s1)), e);
    assert Quiet(s, t);
    hide Quiet, Moves;
    QuietMoves(s, t);
  }

  lemma WaiveClaimMoves(s: State, sender: Address, now: nat, claimId: nat)
    requires Inv(s) && WaiveClaim(s, sender, now, claimId).Done?
    ensures Moves(s, WaiveClaim(s, sender, now, claimId).state, 0)
  {
    var k := claimId - 1;
    var c := s.claims[k].(status := ClaimStatus.Waived);
    var e := ClaimWaived(claimId);
    var s1 := s.(claims := s.claims[k := c]);
    if s.claimsClosed {
      TakeOutMoves(s, k, c, false);
      PaidThenLogged(s, RefreshAllocationPhase(AllocateClaimToTenant(s1, k).state), e);
    } else {
      RestatusShares(s.claims, k, c);
      RestatusMoves(s, s1, e);
    }
    hide Inv, AllocateClaimToTenant, RefreshAllocationPhase, InvalidateSettlement, Moves, Folded;
  }

  /** Changing the phase, the case or the decision vector moves no money. */
  lemma RephaseMoves(s: State, t: State, u: State)
    requires Moves(s, t, 0)
    requires u.terms == t.terms && u.accounting == t.accounting && u.claims == t.claims && u.log == t.log
    ensures Moves(s, u, 0)
  {
    hide Folded, TotalFrom, LogAgrees;
  }

  lemma CloseClaimsMoves(s: State, now: nat)
    requires Inv(s) && CloseClaims(s, now).Done?
    ensures Moves(s, CloseClaims(s, now).state, 0)
  {
    hide CloseClaimsInternal, Moves, Inv;
    if s.claimsClosed { Idle(s); } else { CloseMoves(s); }
  }

  lemma FinalizePrimaryMoves(s: State, now: nat, caseId: nat)
    requires Inv(s) && FinalizePrimary(s, now, caseId).Done?
    ensures Moves(s, FinalizePrimary(s, now, caseId).state, 0)
  {
    hide TotalFrom, FinishCheckoutCase, ApplyDecision, Moves, ClaimsOk, ScheduleOk, ProposalOk, Folded;
    var c := s.activeCase;
    if c.phase.Finalized? {
      Idle(s);
    } else if c.caseType.Claims? {
      ApplyMoves(s);
      var t := ApplyDecision(s).state;
      var u := t.(activeCase := t.activeCase.(phase := CasePhase.Finalized), phase := Phase.Allocated);
      RephaseMoves(s, t, u);
      PaidThenLogged(s, u, DecisionFinalized(caseId, c.decisionHash));
    } else {
      FinishCheckoutQuiet(s, now, c.checkoutApproved);
      var t := FinishCheckoutCase(s, now, c.checkoutApproved).state;
      QuietMoves(s, t);
      PaidThenLogged(s, t, DecisionFinalized(caseId, c.decisionHash));
    }
  }

  lemma FinishCheckoutQuiet(s: State, now: nat, approved: bool)
    requires FinishCheckoutCase(s, now, approved).Done?
    ensures Quiet(s, FinishCheckoutCase(s, now, approved).state)
  {
    hide Folded, TotalFrom;
  }

  lemma ResolveFallbackMoves(s: State, sender: Address, now: nat, caseId: nat, result: seq<DecisionInput>, h: Hash)
    requires Inv(s) && ResolveFallback(s, sender, now, caseId, result, h).Done?
    ensures Moves(s, ResolveFallback(s, sender, now, caseId, result, h).state, 0)
  {
    hide TotalFrom, ApplyDecision, Moves, ValidDecision, ScheduleOk, Folded, ClaimsOk, CaseOk;
    var digest := ClaimsDigest(caseId, h, result);
    var s1 := s.(decisions := result);
    ApplyMoves(s1);
    var t := ApplyDecision(s1).state;
    var c := t.activeCase.(proposalHash := h, decisionHash := digest, phase := CasePhase.Finalized);
    hide Inv;
    ResolvedMoves(s, s1, t, t.(activeCase := c, phase := Phase.Allocated), DecisionFinalized(caseId, digest));
  }

  lemma ResolvedMoves(s: State, s1: State, t: State, u: State, e: Event)
    requires s1 == s.(decisions := s1.decisions) && Moves(s1, t, 0) && Neutral(e)
    requires u == t.(activeCase := u.activeCase, phase := u.phase)
    ensures Moves(s, Emit(InvalidateSettlement(u), e), 0)
  {
    hide Folded, TotalFrom, LogAgrees;
    assert Moves(s, t, 0);
    hide Moves;
    RephaseMoves(s, t, u);
    InvalidateQuiet(u);
    QuietMoves(u, InvalidateSettlement(u));
    MovesTrans(s, u, InvalidateSettlement(u), 0, 0);
    PaidThenLogged(s, InvalidateSettlement(u), e);
  }

  lemma FinalizeTimeoutMoves(s: State, now: nat, caseId: nat)
    requires Inv(s) && FinalizeTimeout(s, now, caseId).Done?
    ensures Moves(s, FinalizeTimeout(s, now, caseId).state, 0)
  {
    hide TotalFrom, AllocateCredit, Moves, ValidDecision, ScheduleOk, Folded, CaseOk, LogGrows;
    var amount := s.accounting.unallocated;
    if s.activeCase.phase.Finalized? {
      Idle(s);
    } else {
      DisputedWhole(s);
      hide Inv, Whole;
      CreditForm(s, s.terms.tenant, amount, Timeout);
      var t := AllocateCredit(s, s.terms.tenant, amount, Timeout).state;
      PaidMoves(s, t, amount, 0);
      var u := t.(activeCase := t.activeCase.(phase := CasePhase.Finalized), phase := Phase.Allocated);
      RephaseMoves(s, t, u);
      PaidThenLogged(s, u, TimeoutAllocated(caseId, amount));
    }
  }

  lemma DisputedWhole(s: State)
    requires Base(s) && InReview(s)
    ensures Whole(s.accounting.unallocated)
  {
    hide TotalFrom, CaseOk, ScheduleOk, ProposalOk;
    TotalWhole(s.claims, 0, DisputedPart);
  }

  /** What expiry leaves after all claims and awards have been honoured is returned to the tenant. */
  lemma RestToTenantMoves(s: State)
    requires s.terms.tenant != s.terms.landlord && Whole(s.accounting.unallocated)
    ensures RestToTenant(s).Done? && Moves(s, RestToTenant(s).state, 0)
  {
    hide AllocateCredit, Moves, Whole, LogGrows, TotalFrom, Folded;
    var amount := s.accounting.unallocated;
    CreditForm(s, s.terms.tenant, amount, HardEnd);
    var t := AllocateCredit(s, s.terms.tenant, amount, HardEnd).state;
    WholeZero();
    PaidMoves(s, t, amount, 0);
    var u := t.(phase := Phase.Allocated,
                activeCase := if t.activeCase.exists_ then t.activeCase.(phase := CasePhase.Finalized)
                              else t.activeCase,
                decisions := [], proposal := NO_PROPOSAL);
    RephaseMoves(s, t, u);
    PaidThenLogged(s, u, EscrowExpired(amount));
  }

  lemma OpenForExpiryQuiet(s: State)
    requires OpenForExpiry(s).Done?
    ensures Quiet(s, OpenForExpiry(s).state)
  {
    hide Folded, TotalFrom, StartClaims, InvalidateCheckoutCase;
    if !s.schedule.started {
      InvalidateCheckoutQuiet(s);
      StartClaimsQuiet(InvalidateCheckoutCase(s), s.terms.leaseEndAt);
    }
  }

  lemma CloseStageMoves(s: State)
    requires Inv(s) && Underway(s)
    ensures CloseClaimsInternal(s).Done? && Moves(s, CloseClaimsInternal(s).state, 0)
  {
    hide Moves, TotalFrom, ClaimsOk, CaseOk, ScheduleOk, ProposalOk;
    if s.phase.ClaimsOpen? { CloseMoves(s); } else { Idle(s); }
  }

  lemma AwardStageMoves(s: State, now: nat)
    requires Inv(s) && now >= s.terms.hardEndAt && s.claimsClosed && (Underway(s) || s.phase.Allocated?)
    ensures AwardUnchallenged(s, now).Done? && Moves(s, AwardUnchallenged(s, now).state, 0)
    ensures Whole(AwardUnchallenged(s, now).state.accounting.unallocated)
  {
    hide Moves, TotalFrom, ClaimsOk, ScheduleOk, ProposalOk, ApplyDecision, Whole, ValidDecision;
    AwardUnchallengedForm(s, now);
    if UnchallengedProposal(s, now) {
      ApplyMoves(s);
      WholeZero();
    } else {
      Idle(s);
      if s.phase.Allocated? { WholeZero(); } else { DisputedWhole(s); }
    }
  }

  lemma WholeZero()
    ensures Whole(0)
  {
  }

  lemma ExpireEscrowMoves(s: State, now: nat)
    requires Inv(s) && ExpireEscrow(s, now).Done?
    ensures Moves(s, ExpireEscrow(s, now).state, 0)
  {
    hide Moves, Inv, OpenForExpiry, CloseClaimsInternal, AwardUnchallenged, RestToTenant, Whole, Quiet;
    if s.accounting.unallocated == 0 {
      UnallocatedIs(s);
      Idle(s);
    } else {
      UnallocatedFunded(s);
      OpenForExpiryForm(s);
      OpenForExpiryQuiet(s);
      var s1 := OpenForExpiry(s).state;
      QuietMoves(s, s1);
      CloseStage(s1);
      CloseStageMoves(s1);
      var s2 := CloseClaimsInternal(s1).state;
      MovesTrans(s, s1, s2, 0, 0);
      AwardStageMoves(s2, now);
      var s3 := AwardUnchallenged(s2, now).state;
      MovesTrans(s, s2, s3, 0, 0);
      AwardUnchallengedForm(s2, now);
      PartiesDiffer(s);
      RestToTenantMoves(s3);
      MovesTrans(s, s3, RestToTenant(s3).state, 0, 0);
    }
  }

  lemma Idle(s: State)
    ensures Moves(s, s, 0)
  {
    hide Folded, TotalFrom, LogAgrees;
  }

  lemma PartiesDiffer(s: State)
    requires Inv(s)
    ensures s.terms.tenant != s.terms.landlord
  {
    hide TotalFrom, ClaimsOk, CaseOk, ScheduleOk, ProposalOk, PhaseOk;
  }

  lemma UnallocatedIs(s: State)
    requires Inv(s) && s.accounting.unallocated == 0 && s.accounting.fundedAmount != 0
    ensures s.phase.Allocated? || s.phase.Closed?
  {
    hide TotalFrom, ClaimsOk, CaseOk, ScheduleOk, ProposalOk;
  }

  /** A confirmed settlement is recorded once, with exactly the landlord's share. */
  lemma ConfirmSettlementMoves(s: State, sender: Address, now: nat, proposalId: nat)
    requires Inv(s) && ConfirmSettlement(s, sender, now, proposalId).Done?
    ensures Moves(s, ConfirmSettlement(s, sender, now, proposalId).state, 1)
  {
    hide PhaseOk, TotalFrom, ClaimsOk, CaseOk, ScheduleOk, PayShares, Folded, Absorb, LogGrows, Moves;
    var p := s.proposal;
    var s0 := s.(proposal := NO_PROPOSAL);
    assert Whole(p.tenantShare) && Whole(p.landlordShare) && p.proposalId != 0;
    hide Whole, IsBusinessAmount;
    SharesForm(s0, p.tenantShare, p.landlordShare);
    hide Inv;
    var t := PayShares(s0, p.tenantShare, p.landlordShare).state;
    SettlementMoves(s, t, p.tenantShare, p.landlordShare, ConfirmSettlement(s, sender, now, proposalId).state,
                    proposalId);
  }

  lemma SettlementMoves(s: State, t: State, tenantShare: nat, landlordShare: nat, u: State, id: nat)
    requires t.terms == s.terms && t.claims == s.claims && Whole(tenantShare) && Whole(landlordShare)
    requires t.accounting.fundedAmount == s.accounting.fundedAmount
    requires t.accounting.tenantWithdrawn == s.accounting.tenantWithdrawn
    requires t.accounting.landlordWithdrawn == s.accounting.landlordWithdrawn
    requires Paid(s, t, tenantShare, landlordShare) && LogKept(s.(proposal := NO_PROPOSAL), t)
    requires u.terms == t.terms && u.claims == t.claims && u.accounting == t.accounting
    requires u.log == t.log + [SettlementConfirmed(id, tenantShare, landlordShare)]
    ensures Moves(s, u, 1)
  {
    hide TotalFrom;
    FoldedSnoc(t.log, SettlementConfirmed(id, tenantShare, landlordShare), s.terms.tenant);
    hide Folded;
  }

  // ---------- the audited books ----------

  predicate SettledOnce(s: State) {
    var n := Folded(s.log, s.terms.tenant).settlements;
    n <= 1 && (n == 1 ==> s.phase.Allocated? || s.phase.Closed?)
  }

  predicate WholeAmounts(a: Accounting) {
    && Whole(a.fundedAmount) && Whole(a.unallocated) && Whole(a.tenantCredit) && Whole(a.landlordCredit)
    && Whole(a.tenantWithdrawn) && Whole(a.landlordWithdrawn)
  }

  /** The books are in order: the events alone give all six amounts; the landlord's total is exactly what
      his claims were allocated plus his share of the at most one confirmed settlement; and every amount
      is in whole business units. */
  predicate Audited(s: State) {
    && LogAgrees(s.log, s.terms.tenant, s.accounting)
    && LandlordGap(s) == 0
    && SettledOnce(s)
    && WholeAmounts(s.accounting)
  }

  lemma DeployAudited(t: Terms, factory: Address, now: nat)
    requires Deploy(t, factory, now).Done?
    ensures Audited(Deploy(t, factory, now).state)
  {
  }

  /** Nothing but a withdrawal changes a lease that is allocated or closed. */
  predicate Final(s: State) {
    s.phase.Allocated? || s.phase.Closed?
  }

  predicate IsWithdrawal(call: Call) {
    call.CallWithdraw? || call.CallWithdrawFor?
  }

  lemma AllocatedIsFinal(s: State, sender: Address, now: nat, call: Call)
    requires Inv(s) && Final(s) && !IsWithdrawal(call) && Exec(s, sender, now, call).Done?
    ensures Exec(s, sender, now, call).state == s
  {
    hide TotalFrom, ClaimsOk, ScheduleOk, StartClaims, InvalidateCheckoutCase, CheckInputs, NewClaims;
    hide AllocateClaimToLandlord, AllocateClaimToTenant, RefreshAllocationPhase, CloseClaimsInternal, ContestAll;
    hide RecordPrimaryProposal, CaseLimit, ApplyActiveDecision, ApplyDecision, ValidDecision, FinishCheckoutCase;
    hide AllocateCredit, OpenForExpiry, AwardUnchallenged, RestToTenant, PayShares, InvalidateSettlement;
    hide Folded, Absorb;
  }

  // ---------- every call, and every run ----------

  function SettlementsOf(call: Call): nat {
    if call.CallConfirmSettlement? then 1 else 0
  }

  /** Every call but funding and withdrawing is a pay-out (or moves nothing). */
  lemma ExecMoves(s: State, sender: Address, now: nat, call: Call)
    requires Inv(s) && !call.CallFund? && !IsWithdrawal(call) && Exec(s, sender, now, call).Done?
    ensures Moves(s, Exec(s, sender, now, call).state, SettlementsOf(call))
  {
    hide Inv, Moves, Quiet, AcceptTerms, CancelUnfunded, ExpireUnfunded, RequestCheckout, RespondCheckout;
    hide OpenCheckoutCase, StartScheduledSettlement, SubmitClaims, RespondClaim, WaiveClaim, CloseClaims;
    hide OpenClaimCase, ProposeDecision, ProposeCheckoutDecision, Challenge, EscalateTimeout, FinalizePrimary;
    hide ResolveFallback, ResolveFallbackCheckout, MarkServiceTimeout, FinalizeTimeout, ExpireEscrow;
    hide ProposeSettlement, ConfirmSettlement;
    var t := Exec(s, sender, now, call).state;
    match call {
      case CallAcceptTerms(h) => AcceptTermsQuiet(s, sender, now, h);
      case CallCancelUnfunded => CancelUnfundedQuiet(s, sender);
      case CallExpireUnfunded => ExpireUnfundedQuiet(s, sender, now);
      case CallRequestCheckout(h) => RequestCheckoutQuiet(s, sender, now, h);
      case CallRespondCheckout(agree, h) => RespondCheckoutQuiet(s, sender, now, agree, h);
      case CallOpenCheckoutCase => OpenCheckoutCaseQuiet(s, now);
      case CallStartScheduledSettlement => StartScheduledSettlementQuiet(s, now);
      case CallSubmitClaims(inputs) => SubmitClaimsQuiet(s, sender, now, inputs);
      case CallRespondClaim(id, accept, h) => RespondClaimMoves(s, sender, now, id, accept, h);
      case CallWaiveClaim(id) => WaiveClaimMoves(s, sender, now, id);
      case CallCloseClaims => CloseClaimsMoves(s, now);
      case CallOpenClaimCase => OpenClaimCaseQuiet(s, now);
      case CallProposeDecision(id, result, h) => ProposeDecisionQuiet(s, sender, now, id, result, h);
      case CallProposeCheckoutDecision(id, approved, h) =>
        ProposeCheckoutDecisionQuiet(s, sender, now, id, approved, h);
      case CallChallenge(id, h) => ChallengeQuiet(s, sender, now, id, h);
      case CallEscalateTimeout(id) => EscalateTimeoutQuiet(s, sender, now, id);
      case CallFinalizePrimary(id) => FinalizePrimaryMoves(s, now, id);
      case CallResolveFallback(id, result, h) => ResolveFallbackMoves(s, sender, now, id, result, h);
      case CallResolveFallbackCheckout(id, approved, h) =>
        ResolveFallbackCheckoutQuiet(s, sender, now, id, approved, h);
      case CallMarkServiceTimeout(id) => MarkServiceTimeoutQuiet(s, now, id);
      case CallFinalizeTimeout(id) => FinalizeTimeoutMoves(s, now, id);
      case CallExpireEscrow => ExpireEscrowMoves(s, now);
      case CallProposeSettlement(a, l, rev, until, h) => ProposeSettlementQuiet(s, sender, now, a, l, rev, until, h);
      case CallConfirmSettlement(id) => ConfirmSettlementMoves(s, sender, now, id);
      case _ =>
    }
    if Quiet(s, t) && !call.CallConfirmSettlement? { QuietMoves(s, t); }
  }

  lemma FundAudited(s: State, sender: Address, now: nat, amount: nat, registry: RegistryAnswer, token: TokenAnswer)
    requires Inv(s) && Audited(s) && Fund(s, sender, now, amount, registry, token).Done?
    ensures Audited(Fund(s, sender, now, amount, registry, token).state)
  {
    hide TotalFrom, Folded, CaseOk, ScheduleOk, ProposalOk;
  }

  lemma WithdrawAudited(s: State, sender: Address, to: Address, allowZero: bool, token: TokenAnswer)
    requires Inv(s) && Audited(s) && WithdrawTo(s, sender, to, allowZero, token).Done?
    ensures Audited(WithdrawTo(s, sender, to, allowZero, token).state)
  {
    hide TotalFrom, Folded, ClaimsOk, CaseOk, ScheduleOk, ProposalOk, PhaseOk;
  }

  /** A settlement ends the lease; and an ended lease cannot be settled again. */
  lemma OnceOnly(s: State, sender: Address, now: nat, call: Call)
    requires Inv(s) && !call.CallFund? && !IsWithdrawal(call) && Exec(s, sender, now, call).Done?
    ensures call.CallConfirmSettlement? ==> !Final(s) && Exec(s, sender, now, call).state.phase.Allocated?
    ensures Final(s) ==> Exec(s, sender, now, call).state == s
  {
    if Final(s) { AllocatedIsFinal(s, sender, now, call); }
    if call.CallConfirmSettlement? { ConfirmEnds(s, sender, now, call.proposalId); }
    hide Exec, Inv;
  }

  lemma ConfirmEnds(s: State, sender: Address, now: nat, id: nat)
    requires Inv(s) && ConfirmSettlement(s, sender, now, id).Done?
    ensures !Final(s) && ConfirmSettlement(s, sender, now, id).state.phase.Allocated?
  {
    hide TotalFrom, ClaimsOk, CaseOk, ScheduleOk, PayShares;
  }

  lemma MovesAudited(s: State, t: State, n: nat)
    requires Inv(s) && Audited(s) && Moves(s, t, n)
    requires if Final(s) then t == s else n <= 1 && (n == 1 ==> Final(t))
    ensures Audited(t)
  {
    hide TotalFrom, Folded, Inv, LandlordGap;
    UnallocatedWhole(s, t);
    hide LogAgrees;
  }

  lemma UnallocatedWhole(s: State, t: State)
    requires WholeAmounts(s.accounting) && CreditsGrow(s.accounting, t.accounting)
    ensures WholeAmounts(t.accounting)
  {
  }

  lemma ExecAudited(s: State, sender: Address, now: nat, call: Call)
    requires Inv(s) && Audited(s) && Exec(s, sender, now, call).Done?
    ensures Audited(Exec(s, sender, now, call).state)
  {
    hide Inv, Audited, Moves, Exec;
    if call.CallFund? || IsWithdrawal(call) {
      MoneyCallAudited(s, sender, now, call);
    } else {
      ExecMoves(s, sender, now, call);
      OnceOnly(s, sender, now, call);
      MovesAudited(s, Exec(s, sender, now, call).state, SettlementsOf(call));
    }
  }

  lemma MoneyCallAudited(s: State, sender: Address, now: nat, call: Call)
    requires Inv(s) && Audited(s) && Exec(s, sender, now, call).Done? && (call.CallFund? || IsWithdrawal(call))
    ensures Audited(Exec(s, sender, now, call).state)
  {
    hide Inv, Audited, Fund, WithdrawTo;
    match call
    case CallFund(amount, registry, token) => FundAudited(s, sender, now, amount, registry, token);
    case CallWithdraw(token) => WithdrawAudited(s, sender, sender, false, token);
    case CallWithdrawFor(b, token) => WithdrawAudited(s, sender, b, true, token);
  }

  /** Event completeness, landlord provenance and whole units hold along every run. */
  lemma {:induction false} RunAudited(s: State, txs: seq<Tx>)
    requires Inv(s) && Audited(s)
    ensures Inv(Run(s, txs)) && Audited(Run(s, txs))
    decreases |txs|
  {
    hide Inv, Exec, Audited;
    if txs != [] {
      if Exec(s, txs[0].sender, txs[0].now, txs[0].call).Done? {
        ExecKeeps(s, txs[0].sender, txs[0].now, txs[0].call);
        ExecAudited(s, txs[0].sender, txs[0].now, txs[0].call);
      }
      RunAudited(Step(s, txs[0]), txs[1..]);
    }
  }

  /** In every reachable state. */
  lemma ReachableAudited(s: State)
    requires Reachable(s)
    ensures Audited(s)
  {
    var t: Terms, factory: Address, start: nat, txs: seq<Tx> :|
      Deploy(t, factory, start).Done? && Chronological(txs) && s == Run(Deploy(t, factory, start).state, txs);
    DeployEstablishes(t, factory, start);
    DeployAudited(t, factory, start);
    hide Inv, Audited, Deploy;
    RunAudited(Deploy(t, factory, start).state, txs);
  }

  // ---------- party totals ----------

  function TenantTotal(a: Accounting): nat {
    a.tenantCredit + a.tenantWithdrawn
  }

  function LandlordTotal(a: Accounting): nat {
    a.landlordCredit + a.landlordWithdrawn
  }

  /** What a party has been given is never taken back. */
  lemma TotalsNeverDrop(s: State, sender: Address, now: nat, call: Call)
    requires Inv(s)
    ensures var t := After(Exec(s, sender, now, call), s);
      && TenantTotal(s.accounting) <= TenantTotal(t.accounting)
      && LandlordTotal(s.accounting) <= LandlordTotal(t.accounting)
  {
    hide Exec, Inv, Moves;
    if Exec(s, sender, now, call).Done? {
      if call.CallFund? || IsWithdrawal(call) {
        MoneyCallTotals(s, sender, now, call);
      } else {
        ExecMoves(s, sender, now, call);
        MovesTotals(s, Exec(s, sender, now, call).state, SettlementsOf(call));
      }
    }
  }

  lemma MoneyCallTotals(s: State, sender: Address, now: nat, call: Call)
    requires (call.CallFund? || IsWithdrawal(call)) && Exec(s, sender, now, call).Done?
    ensures var t := Exec(s, sender, now, call).state;
      && TenantTotal(s.accounting) <= TenantTotal(t.accounting)
      && LandlordTotal(s.accounting) <= LandlordTotal(t.accounting)
  {
    hide Fund, WithdrawTo;
    match call
    case CallFund(amount, registry, token) => FundTotals(s, sender, now, amount, registry, token);
    case CallWithdraw(token) => WithdrawTotals(s, sender, sender, false, token);
    case CallWithdrawFor(b, token) => WithdrawTotals(s, sender, b, true, token);
  }

  lemma FundTotals(s: State, sender: Address, now: nat, amount: nat, registry: RegistryAnswer, token: TokenAnswer)
    requires Fund(s, sender, now, amount, registry, token).Done?
    ensures var t := Fund(s, sender, now, amount, registry, token).state;
      && TenantTotal(s.accounting) == TenantTotal(t.accounting)
      && LandlordTotal(s.accounting) == LandlordTotal(t.accounting)
  {
    hide Folded;
  }

  /** A withdrawal turns credit into money withdrawn. */
  lemma WithdrawTotals(s: State, sender: Address, to: Address, allowZero: bool, token: TokenAnswer)
    requires WithdrawTo(s, sender, to, allowZero, token).Done?
    ensures var t := WithdrawTo(s, sender, to, allowZero, token).state;
      && TenantTotal(s.accounting) == TenantTotal(t.accounting)
      && LandlordTotal(s.accounting) == LandlordTotal(t.accounting)
  {
    hide Folded;
  }

  lemma MovesTotals(s: State, t: State, n: nat)
    requires Moves(s, t, n)
    ensures TenantTotal(s.accounting) <= TenantTotal(t.accounting)
    ensures LandlordTotal(s.accounting) <= LandlordTotal(t.accounting)
  {
    hide Folded, LogAgrees, LandlordGap;
  }

  lemma {:induction false} RunTotalsNeverDrop(s: State, txs: seq<Tx>)
    requires Inv(s)
    ensures TenantTotal(s.accounting) <= TenantTotal(Run(s, txs).accounting)
    ensures LandlordTotal(s.accounting) <= LandlordTotal(Run(s, txs).accounting)
    decreases |txs|
  {
    hide Inv, Exec;
    if txs != [] {
      TotalsNeverDrop(s, txs[0].sender, txs[0].now, txs[0].call);
      RunKeeps(s, [txs[0]]);
      assert Run(s, [txs[0]]) == Run(Step(s, txs[0]), []);
      RunTotalsNeverDrop(Step(s, txs[0]), txs[1..]);
    }
  }
}
