/** The planner's predictions about the contract: what it plans succeeds, makes progress, never runs out
    while funds are unallocated, and names one deadline per action. */
module PlannerSoundness {
  import opened Options
  import opened EscrowTypes
  import opened ClaimTotals
  import opened EventLog
  import opened EscrowSpec
  import opened EscrowLoops
  import opened EscrowInvariant
  import opened EscrowPreservation
  import opened EscrowAudit
  import opened EscrowExit
  import opened EscrowGuarantees
  import opened EscrowHistory
  import opened WorkerActions

  // ---------- planned actions succeed, and make progress ----------

  /** How many public advances can still follow, at most. */
  function Rank(s: State): nat {
    match s.phase
    case CheckoutCase => (match s.activeCase.phase case Primary => 11 case Proposed => 10 case _ => 9)
    case CheckoutRequested => 8
    case Active => 7
    case ClaimsOpen => 6
    case ClaimsReview => 5
    case ClaimCase => (match s.activeCase.phase case Primary => 4 case Proposed => 3 case _ => 2)
    case ExitPending => 1
    case _ => 0
  }

  lemma RankBound(s: State)
    ensures Rank(s) <= 11
  {
  }

  /** Actions the contract refuses from the hard end on. */
  predicate StopsAtHardEnd(kind: WorkerKind) {
    kind.StartSettlement? || kind.CloseClaimsAction? || kind.OpenCaseAction?
  }

  function Perform(s: State, sender: Address, now: nat, a: PlannedAction): Outcome {
    Exec(s, sender, now, CallFor(a.kind, a.caseId))
  }

  lemma StartProgress(s: State, now: nat)
    requires Inv(s) && Unscheduled(s) && StartScheduledSettlement(s, now).Done?
    ensures StartScheduledSettlement(s, now).state.phase.ClaimsOpen?
  {
    hide StartClaims, InvalidateCheckoutCase, InvalidateSettlement, Inv, Base;
    var s1 := InvalidateSettlement(s);
    InvalidateKeeps(s);
    InvalidatedPhase(s);
    InvalidateCheckoutForm(s1);
    StartClaimsOpens(InvalidateCheckoutCase(s1), s.terms.leaseEndAt);
  }

  lemma EscalateProgress(s: State, sender: Address, now: nat, id: nat)
    requires Inv(s) && EscalateTimeout(s, sender, now, id).Done?
    ensures Rank(EscalateTimeout(s, sender, now, id).state) < Rank(s)
  {
    hide Inv, Folded;
    LiveCase(s);
  }

  /** A case that is not over is what the lease is at. */
  lemma LiveCase(s: State)
    requires Inv(s) && s.activeCase.exists_ && (s.activeCase.phase.Primary? || s.activeCase.phase.Fallback?)
    ensures if s.activeCase.caseType.Checkout? then s.phase.CheckoutCase? else s.phase.ClaimCase?
  {
    hide TotalFrom, ClaimsOk, ScheduleOk, ProposalOk, ValidDecision;
  }

  lemma FinalizePrimaryProgress(s: State, now: nat, id: nat)
    requires Inv(s) && s.activeCase.phase.Proposed? && FinalizePrimary(s, now, id).Done?
    ensures Rank(FinalizePrimary(s, now, id).state) < Rank(s)
  {
    hide TotalFrom, ClaimsOk, ScheduleOk, ProposalOk, FinishCheckoutCase, ApplyDecision;
    if s.activeCase.caseType.Checkout? { FinishCheckoutKeeps(s, now, s.activeCase.checkoutApproved); }
  }

  lemma CaseOf(s: State, now: nat, id: nat)
    requires s.activeCase.phase.Fallback? && MarkServiceTimeout(s, now, id).Done?
    ensures s.activeCase.exists_ && s.activeCase.caseId == id && now >= s.activeCase.fallbackDeadline
  {
    hide FinishCheckoutCase, Folded;
  }

  lemma MarkProgress(s: State, now: nat, id: nat)
    requires Inv(s) && s.activeCase.phase.Fallback? && MarkServiceTimeout(s, now, id).Done?
    ensures Rank(MarkServiceTimeout(s, now, id).state) < Rank(s)
  {
    hide Inv, MarkServiceTimeout;
    CaseOf(s, now, id);
    LiveCase(s);
    if s.activeCase.caseType.Checkout? { MarkCheckoutCaseKeeps(s, now, id); } else { MarkClaimCaseKeeps(s, now, id); }
  }

  lemma FinalizeTimeoutProgress(s: State, now: nat, id: nat)
    requires Inv(s) && s.activeCase.phase.ExitPending? && FinalizeTimeout(s, now, id).Done?
    ensures Rank(FinalizeTimeout(s, now, id).state) < Rank(s)
  {
    hide TotalFrom, ClaimsOk, ScheduleOk, ProposalOk, AllocateCredit;
  }

  lemma CloseProgress(s: State, now: nat)
    requires Inv(s) && s.phase.ClaimsOpen? && CloseClaims(s, now).Done?
    ensures Rank(CloseClaims(s, now).state) < Rank(s)
  {
    hide CloseClaimsInternal, Inv;
    OpenNotClosed(s);
    CloseKeeps(s);
  }

  lemma OpenProgress(s: State, now: nat)
    requires Inv(s) && OpenClaimCase(s, now).Done?
    ensures Rank(OpenClaimCase(s, now).state) < Rank(s)
  {
    hide TotalFrom, ContestAll, ClaimsOk, ScheduleOk, ProposalOk;
  }

  lemma ExpireProgress(s: State, now: nat)
    requires Inv(s) && s.accounting.unallocated > 0 && ExpireEscrow(s, now).Done?
    ensures Rank(ExpireEscrow(s, now).state) < Rank(s)
  {
    hide Inv, OpenForExpiry, CloseClaimsInternal, AwardUnchallenged, RestToTenant;
    ExpireEscrowForm(s, now);
    FundedRank(s);
  }

  lemma FundedRank(s: State)
    requires Inv(s) && s.accounting.unallocated > 0
    ensures Rank(s) > 0
  {
    hide TotalFrom, ClaimsOk, ScheduleOk, ProposalOk, CaseOk;
  }

  /** An action planned from a snapshot, sent while that state still stands and its deadline has passed, is
      accepted if and only if it is not one the contract stops at the hard end, or the hard end is not
      reached yet; and when accepted it strictly lowers the rank. */
  lemma PlannedSucceeds(s: State, chainTime: nat, a: PlannedAction, sender: Address, now: nat)
    requires Inv(s) && Plans(s, chainTime, a) && now >= chainTime && now >= a.dueAt
    ensures Perform(s, sender, now, a).Done? <==> !StopsAtHardEnd(a.kind) || now < s.terms.hardEndAt
    ensures Perform(s, sender, now, a).Done? ==> Rank(Perform(s, sender, now, a).state) < Rank(s)
  {
    hide Inv, Rank, StartScheduledSettlement, CloseClaims, OpenClaimCase, EscalateTimeout;
    hide FinalizePrimary, MarkServiceTimeout, FinalizeTimeout, ExpireEscrow;
    match a.kind {
      case StartSettlement =>
        StartScheduledSettlementAccepted(s, now);
        if now < s.terms.hardEndAt { StartProgress(s, now); UnscheduledRank(s, StartScheduledSettlement(s, now).state); }
      case CloseClaimsAction =>
        CloseClaimsAccepted(s, now);
        OpenNotClosed(s);
        if now < s.terms.hardEndAt { CloseProgress(s, now); }
      case OpenCaseAction =>
        OpenClaimCaseAccepted(s, now);
        if now < s.terms.hardEndAt { OpenProgress(s, now); }
      case EscalateAction =>
        EscalateTimeoutAccepted(s, sender, now, s.activeCase.caseId);
        EscalateProgress(s, sender, now, s.activeCase.caseId);
      case FinalizePrimaryAction =>
        FinalizePrimaryAccepted(s, now, s.activeCase.caseId);
        FinalizePrimaryProgress(s, now, s.activeCase.caseId);
      case MarkTimeoutAction =>
        MarkServiceTimeoutAccepted(s, now, s.activeCase.caseId);
        MarkProgress(s, now, s.activeCase.caseId);
      case FinalizeTimeoutAction =>
        FinalizeTimeoutAccepted(s, now, s.activeCase.caseId);
        FinalizeTimeoutProgress(s, now, s.activeCase.caseId);
      case ExpireAction =>
        ExpireEscrowAccepted(s, now);
        ExpireProgress(s, now);
    }
  }

  lemma UnscheduledRank(s: State, t: State)
    requires Unscheduled(s) && t.phase.ClaimsOpen?
    ensures Rank(t) < Rank(s)
  {
  }

  lemma OpenNotClosed(s: State)
    requires Inv(s) && s.phase.ClaimsOpen?
    ensures !s.claimsClosed
  {
    hide TotalFrom, ClaimsOk, ScheduleOk, ProposalOk, CaseOk;
  }

  /** While funds are unallocated there is always something planned: at least the expiry. */
  lemma AlwaysPlanned(s: State, chainTime: nat)
    requires Inv(s) && s.accounting.unallocated > 0
    ensures Plans(s, chainTime, PlannedAction(ExpireAction, s.terms.hardEndAt, None))
    ensures chainTime >= s.terms.hardEndAt ==>
      Planned(s, chainTime) == [PlannedAction(ExpireAction, s.terms.hardEndAt, None)]
  {
    hide TotalFrom, ClaimsOk, ScheduleOk, ProposalOk, CaseOk;
  }

  /** Once nothing is unallocated, nothing is planned. */
  lemma NothingPlannedAtTheEnd(s: State, chainTime: nat)
    requires Inv(s) && s.accounting.unallocated == 0
    ensures Planned(s, chainTime) == []
  {
    hide TotalFrom, ClaimsOk, ScheduleOk, ProposalOk, CaseOk;
  }

  // ---------- running due actions always ends, with one split ----------

  datatype WorkerStep = WorkerStep(sender: Address, now: nat, action: PlannedAction)

  /** A worker run: each step performs an action planned, due and accepted at its time. */
  predicate WorkerRun(s: State, steps: seq<WorkerStep>)
    decreases |steps|
  {
    steps == [] ||
    (var w := steps[0];
     && Plans(s, w.now, w.action) && w.action.dueAt <= w.now
     && Perform(s, w.sender, w.now, w.action).Done?
     && WorkerRun(Perform(s, w.sender, w.now, w.action).state, steps[1..]))
  }

  function WorkerEnd(s: State, steps: seq<WorkerStep>): State
    requires WorkerRun(s, steps)
    decreases |steps|
  {
    if steps == [] then s
    else WorkerEnd(Perform(s, steps[0].sender, steps[0].now, steps[0].action).state, steps[1..])
  }

  /** Nothing planned is due at time `now`. */
  predicate Idle(s: State, now: nat) {
    forall a :: a in Planned(s, now) ==> a.dueAt > now
  }

  /** From the hard end on, nothing is due exactly when nothing is unallocated. */
  lemma IdleExactly(s: State, now: nat)
    requires Inv(s) && now >= s.terms.hardEndAt
    ensures Idle(s, now) <==> s.accounting.unallocated == 0
  {
    hide Inv, Planned, Plans;
    if s.accounting.unallocated > 0 {
      AlwaysPlanned(s, now);
      assert PlannedAction(ExpireAction, s.terms.hardEndAt, None) in Planned(s, now);
    } else {
      NothingPlannedAtTheEnd(s, now);
    }
  }

  lemma PublicAction(a: PlannedAction)
    ensures Public(CallFor(a.kind, a.caseId))
  {
  }

  /** Every worker run is short, keeps what the landlord is due, and, when no planned action is due at or
      after the hard end, has allocated everything: the landlord exactly his due, the tenant the rest. */
  lemma {:induction false} WorkerRunEnds(s: State, steps: seq<WorkerStep>, now: nat)
    requires Inv(s) && s.accounting.fundedAmount > 0 && WorkerRun(s, steps)
    ensures |steps| <= Rank(s) <= 11
    ensures Inv(WorkerEnd(s, steps)) && LandlordDue(WorkerEnd(s, steps)) == LandlordDue(s)
    ensures WorkerEnd(s, steps).accounting.fundedAmount == s.accounting.fundedAmount
    ensures WorkerEnd(s, steps).terms == s.terms
    ensures now >= s.terms.hardEndAt && Idle(WorkerEnd(s, steps), now) ==>
      var a := WorkerEnd(s, steps).accounting;
      a.unallocated == 0 && LandlordTotal(a) == LandlordDue(s)
      && TenantTotal(a) == s.accounting.fundedAmount - LandlordDue(s)
    decreases |steps|
  {
    hide Inv, Exec, LandlordDue, Rank, Plans, Idle;
    RankBound(s);
    if steps == [] {
      if now >= s.terms.hardEndAt && Idle(s, now) {
        IdleExactly(s, now);
        FinalSplit(s);
      }
    } else {
      var w := steps[0];
      var call := CallFor(w.action.kind, w.action.caseId);
      PlannedSucceeds(s, w.now, w.action, w.sender, w.now);
      PublicAction(w.action);
      ExecKeeps(s, w.sender, w.now, call);
      PublicKeepsDue(s, w.sender, w.now, call);
      PublicKeepsFunding(s, w.sender, w.now, call);
      ExecEvolves(s, w.sender, w.now, call);
      WorkerRunEnds(Perform(s, w.sender, w.now, w.action).state, steps[1..], now);
    }
  }

  // ---------- deadlines are written once ----------

  /** The action can never be planned again: it has been performed, or overtaken. */
  predicate Spent(s: State, kind: WorkerKind, caseId: Option<nat>) {
    match kind
    case StartSettlement => s.schedule.started
    case CloseClaimsAction => s.claimsClosed
    case OpenCaseAction => s.activeCase.exists_ && s.activeCase.caseType.Claims?
    case ExpireAction => Final(s)
    case _ =>
      caseId.Some? && s.activeCase.exists_ && caseId.value <= s.activeCase.caseId
      && (caseId.value == s.activeCase.caseId ==> CaseRank(s.activeCase.phase) > ActionRank(kind))
  }

  /** The case phase an action acts on. */
  function ActionRank(kind: WorkerKind): nat {
    match kind
    case EscalateAction => 1
    case FinalizePrimaryAction => 2
    case MarkTimeoutAction => 3
    case FinalizeTimeoutAction => 4
    case _ => 0
  }

  lemma SpentStays(s: State, t: State, kind: WorkerKind, caseId: Option<nat>)
    requires Inv(s) && Inv(t) && Evolves(s, t) && Spent(s, kind, caseId)
    ensures Spent(t, kind, caseId)
  {
    hide TotalFrom, ClaimsOk, ScheduleOk, ProposalOk, PhaseOk;
  }

  lemma SpentNotPlanned(s: State, chainTime: nat, a: PlannedAction)
    requires Inv(s) && Spent(s, a.kind, a.caseId)
    ensures !Plans(s, chainTime, a)
  {
    hide TotalFrom, ClaimsOk, ScheduleOk, ProposalOk;
  }

  lemma EscalateAdvances(s: State, sender: Address, now: nat, id: nat)
    requires EscalateTimeout(s, sender, now, id).Done?
    ensures EscalateTimeout(s, sender, now, id).state.activeCase.phase.Fallback?
    ensures EscalateTimeout(s, sender, now, id).state.activeCase.caseId == s.activeCase.caseId == id
    ensures EscalateTimeout(s, sender, now, id).state.activeCase.exists_
  {
  }

  lemma FinalizePrimaryAdvances(s: State, now: nat, id: nat)
    requires Inv(s) && s.activeCase.phase.Proposed? && FinalizePrimary(s, now, id).Done?
    ensures FinalizePrimary(s, now, id).state.activeCase == s.activeCase.(phase := CasePhase.Finalized)
  {
    hide TotalFrom, ClaimsOk, ScheduleOk, ProposalOk, FinishCheckoutCase, ApplyDecision, ValidDecision, AwardsFrom;
    hide LockstepFrom, AwardedFrom, LogKept;
    if s.activeCase.caseType.Checkout? {
      FinishCheckoutForm(s, now, s.activeCase.checkoutApproved);
    } else {
      ApplyForm(s);
    }
  }

  lemma MarkAdvances(s: State, now: nat, id: nat)
    requires Inv(s) && s.activeCase.phase.Fallback? && MarkServiceTimeout(s, now, id).Done?
    ensures var c := MarkServiceTimeout(s, now, id).state.activeCase;
      c.exists_ && c.caseId == s.activeCase.caseId && CaseRank(c.phase) >= 4
  {
    hide TotalFrom, ClaimsOk, ScheduleOk, ProposalOk, FinishCheckoutCase, Folded;
    if s.activeCase.caseType.Checkout? {
      var at := s.activeCase.fallbackDeadline;
      FinishCheckoutForm(Emit(s.(activeCase := s.activeCase.(timeoutAt := at)), ServiceTimedOut(id, at)), now, false);
    }
  }

  lemma FinalizeTimeoutAdvances(s: State, now: nat, id: nat)
    requires Inv(s) && s.activeCase.phase.ExitPending? && FinalizeTimeout(s, now, id).Done?
    ensures FinalizeTimeout(s, now, id).state.activeCase == s.activeCase.(phase := CasePhase.Finalized)
  {
    hide TotalFrom, ClaimsOk, ScheduleOk, ProposalOk, AllocateCredit, LogKept, PhaseOk;
    CreditForm(s, s.terms.tenant, s.accounting.unallocated, Timeout);
  }

  lemma OpenAdvances(s: State, now: nat)
    requires OpenClaimCase(s, now).Done?
    ensures var c := OpenClaimCase(s, now).state.activeCase; c.exists_ && c.caseType.Claims?
  {
    hide TotalFrom, ContestAll;
  }

  lemma OpenIsScheduled(s: State)
    requires Inv(s) && s.phase.ClaimsOpen?
    ensures s.schedule.started
  {
    hide TotalFrom, ClaimsOk, ScheduleOk, ProposalOk, CaseOk;
  }

  /** Once performed, an action is spent. */
  lemma PerformedIsSpent(s: State, chainTime: nat, a: PlannedAction, sender: Address, now: nat)
    requires Inv(s) && Plans(s, chainTime, a) && Perform(s, sender, now, a).Done?
    ensures Spent(Perform(s, sender, now, a).state, a.kind, a.caseId)
  {
    hide Inv, StartScheduledSettlement, CloseClaims, OpenClaimCase, EscalateTimeout;
    hide FinalizePrimary, MarkServiceTimeout, FinalizeTimeout, ExpireEscrow;
    match a.kind {
      case StartSettlement => StartProgress(s, now); StartScheduledSettlementKeeps(s, now);
        OpenIsScheduled(StartScheduledSettlement(s, now).state);
      case CloseClaimsAction => OpenNotClosed(s); ClosesClaims(s, now);
      case OpenCaseAction => OpenAdvances(s, now);
      case EscalateAction => EscalateAdvances(s, sender, now, s.activeCase.caseId);
      case FinalizePrimaryAction => FinalizePrimaryAdvances(s, now, s.activeCase.caseId);
      case MarkTimeoutAction => MarkAdvances(s, now, s.activeCase.caseId);
      case FinalizeTimeoutAction => FinalizeTimeoutAdvances(s, now, s.activeCase.caseId);
      case ExpireAction => ExpireEscrowAccepted(s, now); ExpireEscrowForm(s, now);
    }
  }

  lemma ClosesClaims(s: State, now: nat)
    requires Inv(s) && s.phase.ClaimsOpen? && CloseClaims(s, now).Done?
    ensures CloseClaims(s, now).state.claimsClosed
  {
    hide Inv, CloseClaimsInternal;
    CloseKeeps(s);
  }

  /** Two snapshots of one history, the later one reached from the earlier: an action planned in both has
      the same deadline in both. */
  lemma DeadlineFixed(s: State, t: State, now: nat, later: nat, a: PlannedAction, b: PlannedAction)
    requires Inv(s) && Inv(t) && Evolves(s, t)
    requires Plans(s, now, a) && Plans(t, later, b) && a.kind == b.kind && a.caseId == b.caseId
    ensures a.dueAt == b.dueAt
  {
    hide TotalFrom, ClaimsOk, ScheduleOk, ProposalOk;
  }

  /** Write-once deadlines: in one history, each (kind, case) is planned with one deadline only. */
  lemma DueOnce(s: State, txs: seq<Tx>, now: nat, later: nat, a: PlannedAction, b: PlannedAction)
    requires Inv(s) && Plans(s, now, a) && Plans(Run(s, txs), later, b)
    requires a.kind == b.kind && a.caseId == b.caseId
    ensures a.dueAt == b.dueAt
  {
    hide Inv, Run, Evolves, Plans;
    RunEvolves(s, txs);
    DeadlineFixed(s, Run(s, txs), now, later, a, b);
  }

  /** And once it has been performed it is never planned again. */
  lemma DoneOnce(s: State, chainTime: nat, a: PlannedAction, sender: Address, now: nat, txs: seq<Tx>,
                 later: nat, b: PlannedAction)
    requires Inv(s) && Plans(s, chainTime, a) && Perform(s, sender, now, a).Done?
    requires a.kind == b.kind && a.caseId == b.caseId
    ensures !Plans(Run(Perform(s, sender, now, a).state, txs), later, b)
  {
    hide Inv, Run, Evolves, Plans, Spent, Exec;
    var t := Perform(s, sender, now, a).state;
    ExecKeeps(s, sender, now, CallFor(a.kind, a.caseId));
    PerformedIsSpent(s, chainTime, a, sender, now);
    RunEvolves(t, txs);
    SpentStays(t, Run(t, txs), a.kind, a.caseId);
    SpentNotPlanned(Run(t, txs), later, b);
  }

  // ---------- lateness does not matter ----------

  /** Performing a planned action late leaves the same state as performing it in time, event log included,
      unless it finishes a checkout case. */
  lemma LatenessIrrelevant(s: State, chainTime: nat, a: PlannedAction, sender: Address, now: nat, later: nat)
    requires Inv(s) && Plans(s, chainTime, a)
    requires Perform(s, sender, now, a).Done? && Perform(s, sender, later, a).Done?
    requires a.kind.FinalizePrimaryAction? || a.kind.MarkTimeoutAction? ==> s.activeCase.caseType.Claims?
    ensures Perform(s, sender, now, a) == Perform(s, sender, later, a)
  {
    hide Inv, StartClaims, InvalidateCheckoutCase, CloseClaimsInternal, ContestAll, TotalFrom, ApplyDecision;
    hide AllocateCredit, FinishCheckoutCase, ExpireEscrow, Folded;
    if a.kind.ExpireAction? { ExpiryTimeless(s, now, later); }
  }

  lemma ExpiryTimeless(s: State, now: nat, later: nat)
    requires Inv(s) && ExpireEscrow(s, now).Done? && ExpireEscrow(s, later).Done?
    ensures ExpireEscrow(s, now) == ExpireEscrow(s, later)
  {
    hide Inv, OpenForExpiry, CloseClaimsInternal, RestToTenant, AwardUnchallenged, UnchallengedProposal;
    if s.accounting.unallocated > 0 {
      OpenForExpiryForm(s);
      var s1 := OpenForExpiry(s).state;
      CloseStage(s1);
      var s2 := CloseClaimsInternal(s1).state;
      AwardUnchallengedForm(s2, now);
      AwardUnchallengedForm(s2, later);
      AwardTimeless(s2, now, later);
    } else {
      UnallocatedIs(s);
    }
  }

  lemma AwardTimeless(s: State, now: nat, later: nat)
    requires UnchallengedProposal(s, now) <==> UnchallengedProposal(s, later)
    ensures AwardUnchallenged(s, now) == AwardUnchallenged(s, later)
  {
    hide UnchallengedProposal, ApplyDecision;
  }

  /** Finishing a checkout case is the event the claim schedule starts from, so there the time counts:
      an approval gives the same state exactly for times equal up to the lease end, a refusal or a timeout
      exactly for times on the same side of it. */
  lemma CheckoutLateness(s: State, now: nat, later: nat, approved: bool)
    requires Inv(s) && s.phase.CheckoutCase?
    ensures FinishCheckoutCase(s, now, approved) == FinishCheckoutCase(s, later, approved) <==>
      if approved then Min(now, s.terms.leaseEndAt) == Min(later, s.terms.leaseEndAt)
      else now >= s.terms.leaseEndAt <==> later >= s.terms.leaseEndAt
  {
    hide TotalFrom, ClaimsOk, ProposalOk, Folded;
  }
}
