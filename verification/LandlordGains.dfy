/** What each call gives the landlord, to the unit, and so what a whole run gives him
    (contracts/src/DepositEscrow.sol:626-1036, 1227-1303). */
module LandlordGains {
  import opened EscrowTypes
  import opened ClaimTotals
  import opened EventLog
  import opened EscrowSpec
  import opened EscrowLoops
  import opened EscrowInvariant
  import opened EscrowPreservation
  import opened EscrowAudit
  import opened EscrowDecisions
  import opened ClaimProvenance

  /** What a successful call gives the landlord, read from the state before it: the amount of a claim accepted after
      closing, the accepted claims when it closes, the awards of the vector it carries out, his settlement share. */
  function Gain(s: State, now: nat, call: Call): nat {
    if call.CallRespondClaim? then
      if call.accept && s.claimsClosed && 0 < call.claimId <= |s.claims| then s.claims[call.claimId - 1].amount else 0
    else if call.CallConfirmSettlement? then s.proposal.landlordShare
    else (if Closes(s, call) then TotalFrom(s.claims, 0, AcceptedPart) else 0) + AwardsFrom(Applied(s, now, call), 0)
  }

  /** The landlord's total grew by exactly that much. */
  predicate Grew(s: State, t: State, gain: nat) {
    LandlordTotal(t.accounting) == LandlordTotal(s.accounting) + gain
  }

  lemma QuietGrew(s: State, t: State)
    requires Quiet(s, t)
    ensures Grew(s, t, 0)
  {
    hide SameClaimShares, SameBooks;
  }

  lemma NoAwards()
    ensures AwardsFrom([], 0) == 0
  {
  }

  /** Calls that pay nobody. */
  lemma QuietCallGains(s: State, sender: Address, now: nat, call: Call)
    requires Inv(s) && Exec(s, sender, now, call).Done?
    requires call.CallAcceptTerms? || call.CallCancelUnfunded? || call.CallExpireUnfunded? || call.CallRequestCheckout?
             || call.CallRespondCheckout? || call.CallOpenCheckoutCase? || call.CallStartScheduledSettlement?
             || call.CallSubmitClaims? || call.CallOpenClaimCase? || call.CallProposeDecision?
             || call.CallProposeCheckoutDecision? || call.CallChallenge? || call.CallEscalateTimeout?
             || call.CallResolveFallbackCheckout? || call.CallMarkServiceTimeout? || call.CallProposeSettlement?
    ensures Grew(s, Exec(s, sender, now, call).state, 0)
  {
    hide Inv, Quiet, Grew, AcceptTerms, CancelUnfunded, ExpireUnfunded, RequestCheckout, RespondCheckout;
    hide OpenCheckoutCase, StartScheduledSettlement, SubmitClaims, OpenClaimCase, ProposeDecision;
    hide ProposeCheckoutDecision, Challenge, EscalateTimeout, ResolveFallbackCheckout, MarkServiceTimeout;
    hide ProposeSettlement;
    match call {
      case CallAcceptTerms(h) => AcceptTermsQuiet(s, sender, now, h);
      case CallCancelUnfunded => CancelUnfundedQuiet(s, sender);
      case CallExpireUnfunded => ExpireUnfundedQuiet(s, sender, now);
      case CallRequestCheckout(h) => RequestCheckoutQuiet(s, sender, now, h);
      case CallRespondCheckout(agree, h) => RespondCheckoutQuiet(s, sender, now, agree, h);
      case CallOpenCheckoutCase => OpenCheckoutCaseQuiet(s, now);
      case CallStartScheduledSettlement => StartScheduledSettlementQuiet(s, now);
      case CallSubmitClaims(inputs) => SubmitClaimsQuiet(s, sender, now, inputs);
      case CallOpenClaimCase => OpenClaimCaseQuiet(s, now);
      case CallProposeDecision(id, result, h) => ProposeDecisionQuiet(s, sender, now, id, result, h);
      case CallProposeCheckoutDecision(id, approved, h) =>
        ProposeCheckoutDecisionQuiet(s, sender, now, id, approved, h);
      case CallChallenge(id, h) => ChallengeQuiet(s, sender, now, id, h);
      case CallEscalateTimeout(id) => EscalateTimeoutQuiet(s, sender, now, id);
      case CallResolveFallbackCheckout(id, approved, h) =>
        ResolveFallbackCheckoutQuiet(s, sender, now, id, approved, h);
      case CallMarkServiceTimeout(id) => MarkServiceTimeoutQuiet(s, now, id);
      case CallProposeSettlement(ts, ls, rev, until, h) =>
        ProposeSettlementQuiet(s, sender, now, ts, ls, rev, until, h);
      case _ =>
    }
    QuietGrew(s, Exec(s, sender, now, call).state);
  }

  lemma MoneyCallGains(s: State, sender: Address, now: nat, call: Call)
    requires Exec(s, sender, now, call).Done? && (call.CallFund? || IsWithdrawal(call))
    ensures Grew(s, Exec(s, sender, now, call).state, 0)
  {
    hide Fund, WithdrawTo;
    match call
    case CallFund(amount, registry, token) => FundTotals(s, sender, now, amount, registry, token);
    case CallWithdraw(token) => WithdrawTotals(s, sender, sender, false, token);
    case CallWithdrawFor(b, token) => WithdrawTotals(s, sender, b, true, token);
  }

  lemma RespondGains(s: State, sender: Address, now: nat, claimId: nat, accept: bool, h: Hash)
    requires Inv(s) && RespondClaim(s, sender, now, claimId, accept, h).Done?
    ensures Grew(s, RespondClaim(s, sender, now, claimId, accept, h).state,
                 Gain(s, now, CallRespondClaim(claimId, accept, h)))
  {
    RespondClaimAccepted(s, sender, now, claimId, accept, h);
    RespondClaimPays(s, sender, now, claimId, accept, h);
    hide Inv, RespondClaim;
  }

  lemma WaiveGains(s: State, sender: Address, now: nat, claimId: nat)
    requires Inv(s) && WaiveClaim(s, sender, now, claimId).Done?
    ensures Grew(s, WaiveClaim(s, sender, now, claimId).state, 0)
  {
    WaiveClaimAccepted(s, sender, now, claimId);
    hide Inv, WaiveClaim;
  }

  /** Closing gives the landlord the accepted claims. */
  lemma CloseGains(s: State)
    requires Inv(s) && s.phase.ClaimsOpen?
    ensures CloseClaimsInternal(s).Done?
    ensures Grew(s, CloseClaimsInternal(s).state, TotalFrom(s.claims, 0, AcceptedPart))
  {
    hide CloseClaimsInternal, TotalFrom, SettledFrom, LogKept, Inv;
    CloseForm(s);
  }

  lemma CloseClaimsGains(s: State, now: nat)
    requires Inv(s) && CloseClaims(s, now).Done?
    ensures Grew(s, CloseClaims(s, now).state,
                 if Closes(s, CallCloseClaims) then TotalFrom(s.claims, 0, AcceptedPart) else 0)
  {
    hide CloseClaimsInternal, Inv, TotalFrom;
    if !s.claimsClosed {
      OpenUnallocated(s);
      CloseGains(s);
    }
  }

  /** Carrying out a vector gives the landlord its awards. */
  lemma ApplyGains(s: State)
    requires Base(s) && InReview(s) && ValidDecision(s.claims, s.decisions)
    requires s.activeCase.disputedAmount == s.accounting.unallocated
    ensures ApplyDecision(s).Done? && Grew(s, ApplyDecision(s).state, AwardsFrom(s.decisions, 0))
  {
    hide ApplyDecision, TotalFrom, AwardsFrom, AwardedFrom, LockstepFrom, LogKept, ValidDecision, CaseOk, ScheduleOk;
    hide ProposalOk, ClaimsOk;
    ApplyForm(s);
  }

  lemma FinalizeGains(s: State, now: nat, caseId: nat)
    requires Inv(s) && FinalizePrimary(s, now, caseId).Done?
    ensures Grew(s, FinalizePrimary(s, now, caseId).state, AwardsFrom(Applied(s, now, CallFinalizePrimary(caseId)), 0))
  {
    hide ApplyDecision, FinishCheckoutCase, Folded, TotalFrom, ClaimsOk, ScheduleOk, ProposalOk, ValidDecision;
    hide AwardsFrom;
    NoAwards();
    if s.activeCase.phase.Proposed? {
      if s.activeCase.caseType.Claims? {
        ApplyGains(s);
      } else {
        FinishCheckoutQuiet(s, now, s.activeCase.checkoutApproved);
        QuietGrew(s, FinishCheckoutCase(s, now, s.activeCase.checkoutApproved).state);
      }
    }
  }

  lemma ResolveGains(s: State, sender: Address, now: nat, caseId: nat, result: seq<DecisionInput>, h: Hash)
    requires Inv(s) && ResolveFallback(s, sender, now, caseId, result, h).Done?
    ensures Grew(s, ResolveFallback(s, sender, now, caseId, result, h).state, AwardsFrom(result, 0))
  {
    hide Inv, ResolveFallback, AwardsFrom, AwardedFrom, LockstepFrom, ValidDecision;
    ResolveFallbackAccepted(s, sender, now, caseId, result, h);
  }

  lemma FinalizeTimeoutGains(s: State, now: nat, caseId: nat)
    requires Inv(s) && FinalizeTimeout(s, now, caseId).Done?
    ensures Grew(s, FinalizeTimeout(s, now, caseId).state, 0)
  {
    hide AllocateCredit, Folded, TotalFrom, ScheduleOk, CaseOk, ProposalOk, ClaimsOk, LogKept, PhaseOk;
    CreditForm(s, s.terms.tenant, s.accounting.unallocated, Timeout);
  }

  lemma ConfirmGains(s: State, sender: Address, now: nat, id: nat)
    requires Inv(s) && ConfirmSettlement(s, sender, now, id).Done?
    ensures Grew(s, ConfirmSettlement(s, sender, now, id).state, s.proposal.landlordShare)
  {
    ConfirmSettlementPays(s, sender, now, id);
    hide Inv, ConfirmSettlement;
  }

  lemma RestGains(s: State)
    requires s.terms.tenant != s.terms.landlord
    ensures RestToTenant(s).Done? && Grew(s, RestToTenant(s).state, 0)
  {
    hide AllocateCredit, Folded, LogKept;
    CreditForm(s, s.terms.tenant, s.accounting.unallocated, HardEnd);
  }

  /** Closing at expiry, of claims that may be closed already. */
  lemma CloseStageGains(s: State)
    requires Inv(s) && Underway(s)
    ensures CloseClaimsInternal(s).Done?
    ensures Grew(s, CloseClaimsInternal(s).state,
                 if s.phase.ClaimsOpen? then TotalFrom(s.claims, 0, AcceptedPart) else 0)
  {
    hide CloseClaimsInternal, Inv, TotalFrom;
    CloseStageClaims(s, Deed([], 0, false, true));
    if s.phase.ClaimsOpen? { CloseGains(s); }
    hide ClaimsMove;
  }

  lemma AwardStageGains(s: State, now: nat)
    requires Inv(s) && now >= s.terms.hardEndAt && s.claimsClosed && (Underway(s) || s.phase.Allocated?)
    ensures AwardUnchallenged(s, now).Done?
    ensures Grew(s, AwardUnchallenged(s, now).state,
                 if UnchallengedProposal(s, now) then AwardsFrom(s.decisions, 0) else 0)
  {
    hide TotalFrom, ClaimsOk, ScheduleOk, ProposalOk, ApplyDecision, ValidDecision, AwardsFrom;
    AwardUnchallengedForm(s, now);
    if UnchallengedProposal(s, now) { ApplyGains(s); }
  }

  /** Opening at expiry moves nothing; afterwards the claims are open exactly when they were not closed. */
  lemma OpenedUnclosed(s: State, s1: State)
    requires Inv(s) && Inv(s1) && Underway(s1) && s.accounting.unallocated > 0
    requires if s.schedule.started then s1 == s else s1.phase.ClaimsOpen?
    ensures s1.phase.ClaimsOpen? <==> !s.claimsClosed
    ensures UnchallengedProposal(s, s.terms.hardEndAt) ==> s1 == s
  {
    hide TotalFrom, ClaimsOk, ScheduleOk, ProposalOk, ValidDecision;
  }

  /** A decision awaits carrying out only in its case. */
  lemma ProposedInCase(s: State, now: nat)
    requires Inv(s)
    ensures UnchallengedProposal(s, now) ==> s.phase.ClaimCase? && s.schedule.started
  {
    hide TotalFrom, ClaimsOk, ScheduleOk, ProposalOk, ValidDecision;
  }

  lemma ExpireGains(s: State, now: nat)
    requires Inv(s) && ExpireEscrow(s, now).Done?
    ensures Grew(s, ExpireEscrow(s, now).state, Gain(s, now, CallExpireEscrow))
  {
    hide Inv, OpenForExpiry, CloseClaimsInternal, AwardUnchallenged, RestToTenant, UnchallengedProposal, AwardsFrom;
    hide TotalFrom, ClaimsMove;
    NoAwards();
    ProposedInCase(s, now);
    if s.accounting.unallocated == 0 {
      UnallocatedExactly(s);
    } else {
      UnallocatedFunded(s);
      OpenForExpiryForm(s);
      var s1 := OpenForExpiry(s).state;
      OpenedUnclosed(s, s1);
      CloseStage(s1);
      CloseStageGains(s1);
      CloseStageClaims(s1, Deed([], 0, false, true));
      var s2 := CloseClaimsInternal(s1).state;
      ProposedInCase(s2, now);
      AwardUnchallengedForm(s2, now);
      AwardStageGains(s2, now);
      PartiesDiffer(s);
      RestGains(AwardUnchallenged(s2, now).state);
      AcceptedAtExpiry(s, s1);
    }
  }

  /** Opening at expiry finds no claims. */
  lemma AcceptedAtExpiry(s: State, s1: State)
    requires s1.accounting == s.accounting && s1.claims == s.claims
    ensures Grew(s, s1, 0) && TotalFrom(s1.claims, 0, AcceptedPart) == TotalFrom(s.claims, 0, AcceptedPart)
  {
  }

  /** Which calls give the landlord something at all. */
  predicate Pays(call: Call) {
    call.CallRespondClaim? || call.CallCloseClaims? || call.CallFinalizePrimary? || call.CallResolveFallback?
    || call.CallExpireEscrow? || call.CallConfirmSettlement?
  }

  lemma GainOf(s: State, now: nat, call: Call)
    ensures !Pays(call) ==> Gain(s, now, call) == 0
    ensures call.CallCloseClaims? ==>
      Gain(s, now, call) == if Closes(s, call) then TotalFrom(s.claims, 0, AcceptedPart) else 0
    ensures call.CallFinalizePrimary? || call.CallResolveFallback? ==>
      Gain(s, now, call) == AwardsFrom(Applied(s, now, call), 0)
    ensures call.CallConfirmSettlement? ==> Gain(s, now, call) == s.proposal.landlordShare
  {
    hide TotalFrom, UnchallengedProposal;
  }

  /** Every call adds exactly its gain to the landlord's total. */
  lemma ExecGains(s: State, sender: Address, now: nat, call: Call)
    requires Inv(s) && Exec(s, sender, now, call).Done?
    ensures Grew(s, Exec(s, sender, now, call).state, Gain(s, now, call))
  {
    hide Inv, Grew, RespondClaim, WaiveClaim, CloseClaims, FinalizePrimary, ResolveFallback, FinalizeTimeout;
    hide ConfirmSettlement, ExpireEscrow, Gain;
    GainOf(s, now, call);
    match call {
      case CallRespondClaim(id, accept, h) => RespondGains(s, sender, now, id, accept, h);
      case CallWaiveClaim(id) => WaiveGains(s, sender, now, id);
      case CallCloseClaims => CloseClaimsGains(s, now);
      case CallFinalizePrimary(id) => FinalizeGains(s, now, id);
      case CallResolveFallback(id, result, h) => ResolveGains(s, sender, now, id, result, h);
      case CallFinalizeTimeout(id) => FinalizeTimeoutGains(s, now, id);
      case CallExpireEscrow => ExpireGains(s, now);
      case CallConfirmSettlement(id) => ConfirmGains(s, sender, now, id);
      case _ =>
        hide Exec;
        OtherGains(s, sender, now, call);
    }
  }

  lemma OtherGains(s: State, sender: Address, now: nat, call: Call)
    requires Inv(s) && Exec(s, sender, now, call).Done?
    requires !call.CallRespondClaim? && !call.CallWaiveClaim? && !call.CallCloseClaims? && !call.CallFinalizePrimary?
             && !call.CallResolveFallback? && !call.CallFinalizeTimeout? && !call.CallExpireEscrow?
             && !call.CallConfirmSettlement?
    ensures Grew(s, Exec(s, sender, now, call).state, 0)
  {
    hide Exec, Inv, Grew;
    if call.CallFund? || IsWithdrawal(call) {
      MoneyCallGains(s, sender, now, call);
    } else {
      QuietCallGains(s, sender, now, call);
    }
  }

  // ---------- along a run ----------

  function Gains(h: seq<Act>): nat {
    if h == [] then 0 else Gain(h[0].before, h[0].tx.now, h[0].tx.call) + Gains(h[1..])
  }

  /** Along every run the landlord's total grows by exactly the gains of the calls that succeeded. */
  lemma {:induction false} RunGains(s: State, txs: seq<Tx>)
    requires Inv(s)
    ensures Grew(s, Run(s, txs), Gains(Executed(s, txs)))
    decreases |txs|
  {
    hide Inv, Exec, Gain;
    if txs != [] {
      var tx := txs[0];
      if Exec(s, tx.sender, tx.now, tx.call).Done? {
        ExecKeeps(s, tx.sender, tx.now, tx.call);
        ExecGains(s, tx.sender, tx.now, tx.call);
        assert Executed(s, txs)[1..] == Executed(Step(s, tx), txs[1..]);
      }
      RunGains(Step(s, tx), txs[1..]);
    }
  }

  /** From deployment: his total is exactly their sum. */
  lemma GainsFromDeployment(t: Terms, factory: Address, start: nat, txs: seq<Tx>)
    requires Deploy(t, factory, start).Done?
    ensures var s := Deploy(t, factory, start).state;
      LandlordTotal(Run(s, txs).accounting) == Gains(Executed(s, txs))
  {
    hide Run, Inv, CheckTerms, Gains;
    DeployEstablishes(t, factory, start);
    RunGains(Deploy(t, factory, start).state, txs);
  }

  /** A successful call that decides something in the landlord's favour: the tenant accepts a claim, a vector that
      awards him something is carried out, a settlement with a share for him is confirmed. */
  predicate Decides(act: Act) {
    || AcceptedBy(act.tx.call) > 0
    || AwardsFrom(Applied(act.before, act.tx.now, act.tx.call), 0) > 0
    || (act.tx.call.CallConfirmSettlement? && act.before.proposal.landlordShare > 0)
  }

  predicate Undecided(h: seq<Act>) {
    forall j :: 0 <= j < |h| ==> !Decides(h[j])
  }

  predicate NoneAccepted(cs: seq<Claim>) {
    forall i :: 0 <= i < |cs| ==> !cs[i].status.Accepted?
  }

  lemma UndecidedStep(s: State, tx: Tx)
    requires Inv(s) && NoneAccepted(s.claims) && Exec(s, tx.sender, tx.now, tx.call).Done? && !Decides(Act(s, tx))
    ensures NoneAccepted(Exec(s, tx.sender, tx.now, tx.call).state.claims)
    ensures Gain(s, tx.now, tx.call) == 0
  {
    hide Exec, Inv, Grounds, Applied, AwardsFrom;
    ExecAccounts(s, tx.sender, tx.now, tx.call);
    TotalZero(s.claims, 0, AcceptedPart);
    if tx.call.CallRespondClaim? && tx.call.accept { AcceptsSome(s, tx.sender, tx.now, tx.call); }
  }

  /** An accepting answer that succeeds names a claim. */
  lemma AcceptsSome(s: State, sender: Address, now: nat, call: Call)
    requires Exec(s, sender, now, call).Done? && call.CallRespondClaim? && call.accept
    ensures AcceptedBy(call) > 0
  {
    hide AllocateClaimToLandlord, RefreshAllocationPhase, Folded, IsOpen;
  }

  /** Silence gives the landlord nothing: along a run in which no call that succeeds decides in his favour, from a
      state without accepted claims, his total does not change. */
  lemma {:induction false} UndecidedRun(s: State, txs: seq<Tx>)
    requires Inv(s) && NoneAccepted(s.claims) && Undecided(Executed(s, txs))
    ensures Grew(s, Run(s, txs), 0)
    decreases |txs|
  {
    hide Inv, Exec, Gain, Decides, NoneAccepted;
    if txs != [] {
      var tx := txs[0];
      var h := Executed(s, txs);
      if Exec(s, tx.sender, tx.now, tx.call).Done? {
        var rest := Executed(Step(s, tx), txs[1..]);
        assert h == [Act(s, tx)] + rest && h[0] == Act(s, tx);
        assert forall j :: 0 <= j < |rest| ==> rest[j] == h[j + 1];
        ExecKeeps(s, tx.sender, tx.now, tx.call);
        ExecGains(s, tx.sender, tx.now, tx.call);
        UndecidedStep(s, tx);
      }
      UndecidedRun(Step(s, tx), txs[1..]);
    }
  }
}
