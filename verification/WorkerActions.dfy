/** The public calls the worker schedules, derived from a confirmed snapshot of one escrow
    (apps/web/src/server/worker-actions.ts). */
module WorkerActions {
  import opened Options
  import opened EscrowTypes
  import opened EscrowSpec

  datatype WorkerKind =
    | StartSettlement | CloseClaimsAction | OpenCaseAction | EscalateAction
    | FinalizePrimaryAction | MarkTimeoutAction | FinalizeTimeoutAction | ExpireAction

  datatype PlannedAction = PlannedAction(kind: WorkerKind, dueAt: nat, caseId: Option<nat>)

  /** Actions that name a case. */
  predicate NamesCase(kind: WorkerKind) {
    kind.EscalateAction? || kind.FinalizePrimaryAction? || kind.MarkTimeoutAction? || kind.FinalizeTimeoutAction?
  }

  function ActionDeadline(s: State, kind: WorkerKind): nat {
    match kind
    case StartSettlement => s.terms.leaseEndAt
    case CloseClaimsAction => s.schedule.claimDeadline
    case OpenCaseAction => s.schedule.responseDeadline
    case EscalateAction => s.activeCase.primaryDeadline
    case FinalizePrimaryAction => s.activeCase.challengeDeadline
    case MarkTimeoutAction => s.activeCase.fallbackDeadline
    case FinalizeTimeoutAction => s.activeCase.timeoutAt
    case ExpireAction => s.terms.hardEndAt
  }

  /** The contract call an action stands for. */
  function CallFor(kind: WorkerKind, caseId: Option<nat>): Call {
    var id := if caseId.Some? then caseId.value else 0;
    match kind
    case StartSettlement => CallStartScheduledSettlement
    case CloseClaimsAction => CallCloseClaims
    case OpenCaseAction => CallOpenClaimCase
    case EscalateAction => CallEscalateTimeout(id)
    case FinalizePrimaryAction => CallFinalizePrimary(id)
    case MarkTimeoutAction => CallMarkServiceTimeout(id)
    case FinalizeTimeoutAction => CallFinalizeTimeout(id)
    case ExpireAction => CallExpireEscrow
  }

  /** The action that advances a case out of its present phase. */
  function CaseAction(c: ActiveCase): Option<WorkerKind> {
    match c.phase
    case Primary => Some(EscalateAction)
    case Proposed => Some(FinalizePrimaryAction)
    case Fallback => Some(MarkTimeoutAction)
    case ExitPending => if c.caseType.Claims? then Some(FinalizeTimeoutAction) else None
    case _ => None
  }

  predicate Settled(p: Phase) {
    p.Cancelled? || p.Allocated? || p.Closed?
  }

  predicate Unscheduled(s: State) {
    (s.phase.Active? || s.phase.CheckoutRequested? || s.phase.CheckoutCase?) && !s.schedule.started
  }

  predicate CaseRunning(s: State) {
    s.activeCase.exists_ && (s.phase.CheckoutCase? || s.phase.ClaimCase? || s.phase.ExitPending?)
  }

  /** When an action is offered, apart from its deadline being set. The hard end supersedes every other
      action, and the scheduled settlement supersedes a checkout case from the lease end on. */
  predicate Offered(s: State, chainTime: nat, kind: WorkerKind) {
    match kind
    case ExpireAction => s.accounting.unallocated > 0
    case StartSettlement => chainTime < s.terms.hardEndAt && Unscheduled(s)
    case CloseClaimsAction => chainTime < s.terms.hardEndAt && s.phase.ClaimsOpen?
    case OpenCaseAction => chainTime < s.terms.hardEndAt && s.phase.ClaimsReview? && s.accounting.unallocated > 0
    case _ => && chainTime < s.terms.hardEndAt && CaseRunning(s)
              && !(s.activeCase.caseType.Checkout? && chainTime >= s.terms.leaseEndAt)
              && CaseAction(s.activeCase) == Some(kind)
  }

  /** Exactly the actions planned for a snapshot. */
  predicate Plans(s: State, chainTime: nat, a: PlannedAction) {
    && s.accounting.fundedAmount > 0 && !Settled(s.phase)
    && Offered(s, chainTime, a.kind)
    && a.dueAt == ActionDeadline(s, a.kind) > 0
    && a.caseId == if NamesCase(a.kind) then Some(s.activeCase.caseId) else None
  }

  function Entry(s: State, kind: WorkerKind): PlannedAction {
    PlannedAction(kind, ActionDeadline(s, kind), if NamesCase(kind) then Some(s.activeCase.caseId) else None)
  }

  /** What one `add` contributes. */
  function EntryIf(s: State, wanted: bool, kind: WorkerKind): seq<PlannedAction> {
    if wanted && ActionDeadline(s, kind) > 0 then [Entry(s, kind)] else []
  }

  /** The list in the order it is built: expiry first. */
  function Planned(s: State, chainTime: nat): seq<PlannedAction> {
    if s.accounting.fundedAmount == 0 || Settled(s.phase) then []
    else
      EntryIf(s, s.accounting.unallocated > 0, ExpireAction) +
      if chainTime >= s.terms.hardEndAt then []
      else
        EntryIf(s, Unscheduled(s), StartSettlement) +
        EntryIf(s, s.phase.ClaimsOpen?, CloseClaimsAction) +
        EntryIf(s, s.phase.ClaimsReview? && s.accounting.unallocated > 0, OpenCaseAction) +
        if CaseRunning(s) && !(s.activeCase.caseType.Checkout? && chainTime >= s.terms.leaseEndAt)
           && CaseAction(s.activeCase).Some?
        then EntryIf(s, true, CaseAction(s.activeCase).value) else []
  }

  /** No kind is planned twice. */
  predicate DistinctKinds(actions: seq<PlannedAction>) {
    forall i, j :: 0 <= i < j < |actions| ==> actions[i].kind != actions[j].kind
  }

  lemma PlannedExactly(s: State, chainTime: nat)
    ensures forall a :: a in Planned(s, chainTime) <==> Plans(s, chainTime, a)
    ensures DistinctKinds(Planned(s, chainTime))
  {
    forall a ensures a in Planned(s, chainTime) <==> Plans(s, chainTime, a) {
      PlannedMember(s, chainTime, a);
    }
    PlannedDistinct(s, chainTime);
  }

  lemma PlannedMember(s: State, chainTime: nat, a: PlannedAction)
    ensures a in Planned(s, chainTime) <==> Plans(s, chainTime, a)
  {
    hide ActionDeadline;
  }

  lemma PlannedDistinct(s: State, chainTime: nat)
    ensures DistinctKinds(Planned(s, chainTime))
  {
    hide ActionDeadline;
  }

  /** `add`: append an action unless its deadline is not set. */
  method Add(s: State, kind: WorkerKind, result: seq<PlannedAction>) returns (r: seq<PlannedAction>)
    ensures r == result + EntryIf(s, true, kind)
  {
    r := result;
    var dueAt := ActionDeadline(s, kind);
    if dueAt > 0 {
      r := r + [PlannedAction(kind, dueAt, if NamesCase(kind) then Some(s.activeCase.caseId) else None)];
    }
  }

  /** The planner, building its list step by step. */
  method PlannedActions(s: State, chainTime: nat) returns (result: seq<PlannedAction>)
    ensures result == Planned(s, chainTime)
    ensures forall a :: a in result <==> Plans(s, chainTime, a)
  {
    hide ActionDeadline, Plans;
    PlannedExactly(s, chainTime);
    result := [];
    if s.accounting.fundedAmount == 0 || Settled(s.phase) { return; }
    if s.accounting.unallocated > 0 { result := Add(s, ExpireAction, result); }
    if chainTime >= s.terms.hardEndAt { return; }
    if Unscheduled(s) { result := Add(s, StartSettlement, result); }
    if s.phase.ClaimsOpen? { result := Add(s, CloseClaimsAction, result); }
    if s.phase.ClaimsReview? && s.accounting.unallocated > 0 { result := Add(s, OpenCaseAction, result); }
    if CaseRunning(s) {
      if s.activeCase.caseType.Checkout? && chainTime >= s.terms.leaseEndAt { return; }
      var kind := CaseAction(s.activeCase);
      if kind.Some? { result := Add(s, kind.value, result); }
    }
  }

  /** `actionMatches`: a stored task still stands for an action planned now. */
  method ActionMatches(kind: WorkerKind, dueAt: nat, caseId: Option<nat>, s: State, chainTime: nat)
    returns (matches: bool)
    ensures matches <==> Plans(s, chainTime, PlannedAction(kind, dueAt, caseId))
  {
    var planned := PlannedActions(s, chainTime);
    matches := PlannedAction(kind, dueAt, caseId) in planned;
  }
}
