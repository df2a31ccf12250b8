/** The planner feeding the task table along one chain history: its deadlines never conflict with the rows
    already there (apps/worker/src/indexer/loop.ts:57-62, apps/web/src/server/worker-tasks.ts:115-127). */
module TaskHistory {
  import opened Options
  import opened EscrowTypes
  import opened EscrowSpec
  import opened EscrowInvariant
  import opened EscrowPreservation
  import opened WorkerActions
  import opened PlannerSoundness
  import opened WorkerTasks
  import opened TaskSafety

  /** The action of a row was planned in a state from which the present one was reached. */
  ghost predicate PlannedBefore(s: State, t: Task) {
    exists past: State, txs: seq<Tx>, at: nat ::
      Inv(past) && Run(past, txs) == s && Plans(past, at, PlannedAction(t.kind, t.dueAt, t.caseId))
  }

  /** Every live row of the lease stands for an action planned somewhere in its history. */
  ghost predicate FromHistory(rows: seq<Task>, lease: nat, s: State) {
    forall i :: 0 <= i < |rows| && rows[i].lease == lease && !rows[i].state.Cancelled? ==> PlannedBefore(s, rows[i])
  }

  lemma {:induction false} RunSnoc(s: State, txs: seq<Tx>, tx: Tx)
    ensures Run(s, txs + [tx]) == Step(Run(s, txs), tx)
    decreases |txs|
  {
    hide Exec, Step;
    if txs == [] {
      assert [tx][1..] == [];
    } else {
      RunSnoc(Step(s, txs[0]), txs[1..], tx);
      assert (txs + [tx])[1..] == txs[1..] + [tx];
    }
  }

  lemma StillPlanned(s: State, tx: Tx, t: Task)
    requires PlannedBefore(s, t)
    ensures PlannedBefore(Step(s, tx), t)
  {
    hide Inv, Run, Plans, Step;
    var past: State, txs: seq<Tx>, at: nat :|
      Inv(past) && Run(past, txs) == s && Plans(past, at, PlannedAction(t.kind, t.dueAt, t.caseId));
    RunSnoc(past, txs, tx);
  }

  /** The history only grows. */
  lemma AdvanceKeeps(rows: seq<Task>, lease: nat, s: State, tx: Tx)
    requires FromHistory(rows, lease, s)
    ensures FromHistory(rows, lease, Step(s, tx))
  {
    hide PlannedBefore, Step;
    forall i | 0 <= i < |rows| && rows[i].lease == lease && !rows[i].state.Cancelled?
      ensures PlannedBefore(Step(s, tx), rows[i])
    {
      StillPlanned(s, tx, rows[i]);
    }
  }

  /** What `runIndexerCycle` asks for when it finds action `a` in the synchronized snapshot `s`. */
  function PlanRequest(lease: nat, a: PlannedAction, source: BlockRef): Request {
    Request(lease, a.kind, a.caseId, a.dueAt, source)
  }

  function PlanCall(lease: nat, a: PlannedAction, source: BlockRef, s: State, id: nat): StoreCall {
    CallEnqueue(PlanRequest(lease, a, source), Some(LeaseRow(false, Some(source), s)), Some(source), id)
  }

  lemma PlannedNow(s: State, at: nat, a: PlannedAction, t: Task)
    requires Inv(s) && Plans(s, at, a) && t.kind == a.kind && t.dueAt == a.dueAt && t.caseId == a.caseId
    ensures PlannedBefore(s, t)
  {
    hide Inv, Plans;
    assert Run(s, []) == s;
  }

  /** A row of the same action has the same deadline. */
  lemma SameDeadline(s: State, at: nat, a: PlannedAction, t: Task)
    requires PlannedBefore(s, t) && Plans(s, at, a) && t.kind == a.kind && t.caseId == a.caseId
    ensures t.dueAt == a.dueAt
  {
    hide Inv, Run, Plans;
    var past: State, txs: seq<Tx>, then_: nat :|
      Inv(past) && Run(past, txs) == s && Plans(past, then_, PlannedAction(t.kind, t.dueAt, t.caseId));
    DueOnce(past, txs, then_, at, PlannedAction(t.kind, t.dueAt, t.caseId), a);
  }

  lemma PlannedIsCurrent(s: State, lease: nat, at: nat, a: PlannedAction, source: BlockRef)
    requires Inv(s) && Plans(s, at, a)
    ensures a.dueAt > 0 && DeadlineCurrent(PlanRequest(lease, a, source), s)
  {
    hide Inv;
  }

  /** A planner candidate with a deadline the store takes is always accepted: no stale source, no wrong deadline,
      no conflict. */
  lemma PlanAccepted(rows: seq<Task>, now: nat, lease: nat, s: State, at: nat, a: PlannedAction, source: BlockRef,
                     id: nat, env: Env)
    requires TableOk(rows, now, env) && Inv(s) && FromHistory(rows, lease, s) && Plans(s, at, a)
    requires IndexOf(rows, id, |rows|).None? && a.dueAt < TIME_LIMIT
    ensures var answer := Apply(rows, now, PlanCall(lease, a, source, s, id), env);
      && answer.Ok? && answer.row.Some? && answer.row.value.dueAt == a.dueAt && answer.row.value.kind == a.kind
      && answer.row.value.caseId == a.caseId && answer.row.value.lease == lease
      && FromHistory(answer.rows, lease, s)
  {
    hide Inv, Plans, PlannedBefore, TableOk, IndexOf, IndexOfKey, DeadlineCurrent, ActionDeadline;
    PlannedIsCurrent(s, lease, at, a, source);
    var r := PlanRequest(lease, a, source);
    var row := Some(LeaseRow(false, Some(source), s));
    var existing := First(rows, SlotQuery(r.lease, r.kind, r.caseId), |rows|);
    if existing.Some? {
      SameDeadline(s, at, a, rows[existing.value]);
    } else {
      UpsertYields(rows, now, r, row, Some(source), id, env);
      PlannedNow(s, at, a, NewTask(id, now, r));
      UpsertedFromHistory(rows, now, r, id, lease, s);
    }
  }

  lemma PlanRejected(rows: seq<Task>, now: nat, lease: nat, s: State, a: PlannedAction, source: BlockRef, id: nat,
                     env: Env)
    requires a.dueAt >= TIME_LIMIT
    ensures Apply(rows, now, PlanCall(lease, a, source, s, id), env) == Refuse(InvalidInput)
  {
    hide First;
  }

  lemma UpsertedFromHistory(rows: seq<Task>, now: nat, r: Request, id: nat, lease: nat, s: State)
    requires FromHistory(rows, lease, s) && Upsert(rows, now, r, id).Ok? && PlannedBefore(s, NewTask(id, now, r))
    ensures FromHistory(Upsert(rows, now, r, id).rows, lease, s)
  {
    hide IndexOf, IndexOfKey;
    var same := IndexOfKey(rows, KeyOf(NewTask(id, now, r)), |rows|);
    if same.Some? {
      SamePlan(s, NewTask(id, now, r), Requeued(rows[same.value]));
    }
    hide PlannedBefore;
  }

  lemma SamePlan(s: State, t: Task, u: Task)
    requires PlannedBefore(s, t) && KeyOf(t) == KeyOf(u)
    ensures PlannedBefore(s, u)
  {
    hide Inv, Run, Plans;
  }

  /** No other call revives a cancelled row, or touches what a row stands for. */
  lemma OtherCallKeeps(rows: seq<Task>, now: nat, call: StoreCall, lease: nat, s: State, env: Env)
    requires TableOk(rows, now, env) && FromHistory(rows, lease, s)
    requires call.CallEnqueue? ==> call.request.lease != lease
    ensures FromHistory(RowsAfter(Apply(rows, now, call, env), rows), lease, s)
  {
    var rows' := RowsAfter(Apply(rows, now, call, env), rows);
    NothingRevived(rows, now, call, lease, env);
    hide Apply, TableOk;
    forall i | 0 <= i < |rows'| && rows'[i].lease == lease && !rows'[i].state.Cancelled?
      ensures PlannedBefore(s, rows'[i])
    {
      SamePlan(s, rows[i], rows'[i]);
    }
  }

  lemma NothingRevived(rows: seq<Task>, now: nat, call: StoreCall, lease: nat, env: Env)
    requires call.CallEnqueue? ==> call.request.lease != lease
    ensures var rows' := RowsAfter(Apply(rows, now, call, env), rows);
      forall i :: 0 <= i < |rows'| && rows'[i].lease == lease && !rows'[i].state.Cancelled? ==>
        i < |rows| && KeyOf(rows[i]) == KeyOf(rows'[i]) && !rows[i].state.Cancelled?
  {
    hide First, IndexOf, IndexOfKey, DeadlineCurrent, SourceCurrent, Faithful;
  }

  /** What may happen while one lease is followed: its synchronized snapshot advances, the planner enqueues an
      action it finds there, or any process does anything else with the table. */
  datatype Happening =
    | Advance(tx: Tx)
    | Plan(now: nat, at: nat, action: PlannedAction, source: BlockRef, id: nat)
    | Other(step: Timed)

  /** The planner only enqueues what it finds; row ids are fresh; time passes; there is no reorganization that takes the
      snapshot back. */
  predicate Plausible(rows: seq<Task>, clock: nat, s: State, lease: nat, h: Happening) {
    match h
    case Advance(_) => true
    case Plan(now, at, a, _, id) =>
      clock <= now && Plans(s, at, a) && IndexOf(rows, id, |rows|).None?
    case Other(step) => clock <= step.now && (step.call.CallEnqueue? ==> step.call.request.lease != lease)
  }

  function ClockAfter(clock: nat, h: Happening): nat {
    match h case Advance(_) => clock case Plan(now, _, _, _, _) => now case Other(step) => step.now
  }

  function TableAfter(rows: seq<Task>, s: State, lease: nat, h: Happening, env: Env): seq<Task> {
    match h
    case Advance(_) => rows
    case Plan(now, _, a, source, id) => RowsAfter(Apply(rows, now, PlanCall(lease, a, source, s, id), env), rows)
    case Other(step) => RowsAfter(Apply(rows, step.now, step.call, env), rows)
  }

  function StateAfter(s: State, h: Happening): State {
    if h.Advance? then Step(s, h.tx) else s
  }

  /** How the store answers the planner: a deadline too large for the input schema is rejected as such, and anything
      else is granted. */
  predicate Granted(rows: seq<Task>, now: nat, lease: nat, a: PlannedAction, source: BlockRef, s: State, id: nat,
                    env: Env) {
    var answer := Apply(rows, now, PlanCall(lease, a, source, s, id), env);
    if a.dueAt < TIME_LIMIT then answer.Ok? else answer == Refuse(InvalidInput)
  }

  /** Everything the planner asks for along the run is answered so. */
  predicate NoConflicts(rows: seq<Task>, clock: nat, s: State, lease: nat, hs: seq<Happening>, env: Env)
    decreases |hs|
  {
    hs != [] && Plausible(rows, clock, s, lease, hs[0]) ==>
      && (hs[0].Plan? ==> Granted(rows, hs[0].now, lease, hs[0].action, hs[0].source, s, hs[0].id, env))
      && NoConflicts(TableAfter(rows, s, lease, hs[0], env), ClockAfter(clock, hs[0]), StateAfter(s, hs[0]), lease,
                     hs[1..], env)
  }

  lemma HappeningKeeps(rows: seq<Task>, clock: nat, s: State, lease: nat, h: Happening, env: Env)
    requires TableOk(rows, clock, env) && Inv(s) && FromHistory(rows, lease, s)
    requires Plausible(rows, clock, s, lease, h)
    ensures TableOk(TableAfter(rows, s, lease, h, env), ClockAfter(clock, h), env)
    ensures Inv(StateAfter(s, h)) && FromHistory(TableAfter(rows, s, lease, h, env), lease, StateAfter(s, h))
    ensures h.Plan? ==> Granted(rows, h.now, lease, h.action, h.source, s, h.id, env)
  {
    hide TableOk, Inv, FromHistory, Apply, Plans, Exec, PlanCall;
    match h
    case Advance(tx) =>
      AdvanceKeeps(rows, lease, s, tx);
      if Exec(s, tx.sender, tx.now, tx.call).Done? { ExecKeeps(s, tx.sender, tx.now, tx.call); }
    case Plan(now, at, a, source, id) =>
      LaterKeeps(rows, clock, now, env);
      if a.dueAt < TIME_LIMIT {
        PlanAccepted(rows, now, lease, s, at, a, source, id, env);
      } else {
        PlanRejected(rows, now, lease, s, a, source, id, env);
      }
      StepKeeps(rows, now, PlanCall(lease, a, source, s, id), env);
    case Other(step) =>
      LaterKeeps(rows, clock, step.now, env);
      OtherCallKeeps(rows, step.now, step.call, lease, s, env);
      StepKeeps(rows, step.now, step.call, env);
  }

  /** Along one chain history the planner never meets the differing-deadline conflict, nor any other refusal but that of
      a deadline past the schema's limit, whatever the workers do in between. */
  lemma {:induction false} PlannerNeverConflicts(rows: seq<Task>, clock: nat, s: State, lease: nat, hs: seq<Happening>,
                                                 env: Env)
    requires TableOk(rows, clock, env) && Inv(s) && FromHistory(rows, lease, s)
    ensures NoConflicts(rows, clock, s, lease, hs, env)
    decreases |hs|
  {
    hide TableOk, Inv, FromHistory, Apply, Granted, Plausible, TableAfter, StateAfter, ClockAfter;
    if hs != [] && Plausible(rows, clock, s, lease, hs[0]) {
      HappeningKeeps(rows, clock, s, lease, hs[0], env);
      PlannerNeverConflicts(TableAfter(rows, s, lease, hs[0], env), ClockAfter(clock, hs[0]), StateAfter(s, hs[0]), lease,
                            hs[1..], env);
    }
  }
}
