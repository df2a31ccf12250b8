/** The durable task table the workers share. Every store method runs in one serialized transaction, so it is
    one atomic step on the rows (apps/web/src/server/worker-tasks.ts; the advisory lock is in
    apps/web/src/server/db.ts:44-45). */
module WorkerTasks {
  import opened Options
  import opened EscrowTypes
  import opened EscrowSpec
  import opened WorkerActions

  /** How long a claim holds its task, how long a task rests after a broadcast or a failed attempt, and how
      often it is attempted (infra/migrations/0003_upload_scans_worker_tasks.sql:28). */
  const LOCK_TIME: nat := 120_000
  const REST_TIME: nat := 10_000
  const MAX_ATTEMPTS: nat := 3
  /** Times the store accepts are below this one. */
  const TIME_LIMIT: nat := 100_000_000_000

  /** A signed transaction. `rest` stands for everything else in its bytes: equal values are equal bytes, and
      have equal hashes. */
  datatype SignedTx = SignedTx(chainId: nat, to: Address, value: nat, call: Call, signed: bool, rest: nat)

  datatype Receipt = Receipt(tx: SignedTx, wellFormed: bool, success: bool)

  datatype TaskState = Queued | Running | Prepared | Broadcast | Confirmed | Failed | Cancelled | Reconcile

  datatype Task = Task(
    id: nat, lease: nat, kind: WorkerKind, caseId: Option<nat>, dueAt: nat, sourceBlock: nat, sourceHash: Hash,
    createdAt: nat, state: TaskState, attempts: nat, nextAttemptAt: nat,
    lockToken: Option<nat>, lockedUntil: Option<nat>, raw: Option<SignedTx>)

  datatype TaskError =
    | InvalidInput | SourceStale | DeadlineMismatch | TaskConflict | LockLost | BadTransaction | BadReceipt | DuplicateId

  /** A method throws, or leaves new rows and answers with a row, or with none. */
  datatype Answer = Refuse(error: TaskError) | Ok(rows: seq<Task>, row: Option<Task>)

  /** The chain the transactions are for, and the escrow address of each lease. */
  datatype Env = Env(chainId: nat, contracts: map<nat, Address>)

  datatype BlockRef = BlockRef(number: nat, hash: Hash)

  datatype LeaseRow = LeaseRow(purged: bool, synced: Option<BlockRef>, snapshot: State)

  datatype Request = Request(lease: nat, kind: WorkerKind, caseId: Option<nat>, dueAt: nat, source: BlockRef)

  // ---------- queries ----------

  function LockedPast(t: Task, now: nat): bool {
    t.lockedUntil.Some? && t.lockedUntil.value > now
  }

  /** The queries that pick one row in an order. */
  datatype Query =
    | SignedQuery
    | DueQuery(chainTime: nat, now: nat)
    | SlotQuery(lease: nat, kind: WorkerKind, caseId: Option<nat>)

  predicate Selects(q: Query, t: Task) {
    match q
    case SignedQuery => t.state.Prepared? || t.state.Broadcast?
    case DueQuery(chainTime, now) =>
      && t.dueAt <= chainTime && t.attempts < MAX_ATTEMPTS && t.nextAttemptAt <= now
      && (t.state.Queued? || (t.state.Running? && t.lockedUntil.Some? && t.lockedUntil.value <= now))
    case SlotQuery(lease, kind, caseId) =>
      !t.state.Cancelled? && t.lease == lease && t.kind == kind && t.caseId == caseId
  }

  /** `ORDER BY`. */
  predicate Precedes(q: Query, t: Task, u: Task) {
    match q
    case SignedQuery => t.createdAt < u.createdAt || (t.createdAt == u.createdAt && t.id < u.id)
    case DueQuery(_, _) => t.dueAt < u.dueAt || (t.dueAt == u.dueAt && t.id < u.id)
    case SlotQuery(_, _, _) => t.createdAt < u.createdAt
  }

  /** `LIMIT 1` over the first `n` rows. */
  function First(rows: seq<Task>, q: Query, n: nat): (r: Option<nat>)
    requires n <= |rows|
    ensures r.Some? ==> r.value < n && Selects(q, rows[r.value])
    ensures r.None? ==> forall j :: 0 <= j < n ==> !Selects(q, rows[j])
  {
    if n == 0 then None
    else
      var r := First(rows, q, n - 1);
      if !Selects(q, rows[n - 1]) then r
      else if r.None? || Precedes(q, rows[n - 1], rows[r.value]) then Some(n - 1) else r
  }

  /** No selected row comes before the one picked. */
  lemma {:induction false} FirstIsFirst(rows: seq<Task>, q: Query, n: nat, j: nat)
    requires j < n <= |rows| && Selects(q, rows[j])
    ensures First(rows, q, n).Some? && !Precedes(q, rows[j], rows[First(rows, q, n).value])
  {
    if j < n - 1 { FirstIsFirst(rows, q, n - 1, j); }
  }

  function IndexOf(rows: seq<Task>, id: nat, n: nat): (r: Option<nat>)
    requires n <= |rows|
    ensures r.Some? ==> r.value < n && rows[r.value].id == id
    ensures r.None? ==> forall j :: 0 <= j < n ==> rows[j].id != id
  {
    if n == 0 then None else if rows[n - 1].id == id then Some(n - 1) else IndexOf(rows, id, n - 1)
  }

  /** The unique key: the lease, the action, the case, the deadline and the block the candidate came from. */
  datatype Key = Key(lease: nat, kind: WorkerKind, caseId: Option<nat>, dueAt: nat, sourceHash: Hash)

  function KeyOf(t: Task): Key {
    Key(t.lease, t.kind, t.caseId, t.dueAt, t.sourceHash)
  }

  function IndexOfKey(rows: seq<Task>, key: Key, n: nat): (r: Option<nat>)
    requires n <= |rows|
    ensures r.Some? ==> r.value < n && KeyOf(rows[r.value]) == key
    ensures r.None? ==> forall j :: 0 <= j < n ==> KeyOf(rows[j]) != key
  {
    if n == 0 then None else if KeyOf(rows[n - 1]) == key then Some(n - 1) else IndexOfKey(rows, key, n - 1)
  }

  /** The row a lock holder may change. */
  function Owned(rows: seq<Task>, id: nat, token: nat, now: nat, states: set<TaskState>): (r: Option<nat>)
    ensures r.Some? ==>
      && r.value < |rows| && rows[r.value].id == id && rows[r.value].state in states
      && rows[r.value].lockToken == Some(token) && LockedPast(rows[r.value], now)
  {
    var r := IndexOf(rows, id, |rows|);
    if r.Some? && rows[r.value].lockToken == Some(token) && LockedPast(rows[r.value], now)
       && rows[r.value].state in states
    then r else None
  }

  // ---------- what a method does to a row ----------

  function Unlocked(t: Task): Task {
    t.(lockToken := None, lockedUntil := None)
  }

  function Invalidated(t: Task, lease: nat): Task {
    if t.lease == lease && !t.state.Cancelled? && !t.state.Reconcile?
    then Unlocked(t.(state := if t.raw.None? then TaskState.Cancelled else Reconcile)) else t
  }

  function Exhausted(t: Task, now: nat): Task {
    if t.attempts >= MAX_ATTEMPTS && !LockedPast(t, now)
       && (t.state.Queued? || t.state.Running? || t.state.Prepared? || t.state.Broadcast?)
    then Unlocked(t.(state := if t.raw.None? then Failed else Reconcile)) else t
  }

  function Claimed(t: Task, token: nat, now: nat): Task {
    t.(state := if t.raw.None? then Running else t.state, attempts := t.attempts + 1,
       lockToken := Some(token), lockedUntil := Some(now + LOCK_TIME))
  }

  function Signed(t: Task, raw: SignedTx): Task {
    t.(state := Prepared, raw := Some(raw))
  }

  function Sent(t: Task, now: nat): Task {
    Unlocked(t.(state := Broadcast, nextAttemptAt := now + REST_TIME))
  }

  function Receipted(t: Task, r: Receipt): Task {
    t.(state := if r.success then Confirmed else Failed)
  }

  function Retried(t: Task, now: nat): Task {
    Unlocked(t.(state := if t.raw.Some? then Reconcile
                         else if t.attempts >= MAX_ATTEMPTS then Failed else Queued,
                nextAttemptAt := now + REST_TIME))
  }

  function Requeued(t: Task): Task {
    Unlocked(t.(state := Queued, attempts := 0, nextAttemptAt := 0))
  }

  function NewTask(id: nat, now: nat, r: Request): Task {
    Task(id, r.lease, r.kind, r.caseId, r.dueAt, r.source.number, r.source.hash, now, Queued, 0, 0, None, None, None)
  }

  // ---------- the methods ----------

  function EachInvalidated(rows: seq<Task>, lease: nat): seq<Task> {
    seq(|rows|, i requires 0 <= i < |rows| => Invalidated(rows[i], lease))
  }

  function EachExhausted(rows: seq<Task>, now: nat): seq<Task> {
    seq(|rows|, i requires 0 <= i < |rows| => Exhausted(rows[i], now))
  }

  predicate SourceCurrent(r: Request, lease: Option<LeaseRow>, checkpoint: Option<BlockRef>) {
    lease.Some? && !lease.value.purged && checkpoint == Some(r.source) && lease.value.synced == Some(r.source)
  }

  predicate DeadlineCurrent(r: Request, s: State) {
    && r.dueAt == ActionDeadline(s, r.kind)
    && (if NamesCase(r.kind) then s.activeCase.exists_ && r.caseId == Some(s.activeCase.caseId) else r.caseId.None?)
  }

  /** `enqueue`: keep the live row of this action if there is one, else insert a row or revive the cancelled
      row with the same key. */
  function Enqueue(rows: seq<Task>, now: nat, r: Request, lease: Option<LeaseRow>, checkpoint: Option<BlockRef>,
                   id: nat): Answer {
    if !(0 < r.dueAt < TIME_LIMIT) then Refuse(InvalidInput)
    else if !SourceCurrent(r, lease, checkpoint) then Refuse(SourceStale)
    else if !DeadlineCurrent(r, lease.value.snapshot) then Refuse(DeadlineMismatch)
    else
      var existing := First(rows, SlotQuery(r.lease, r.kind, r.caseId), |rows|);
      if existing.Some? then
        if rows[existing.value].dueAt == r.dueAt then Ok(rows, Some(rows[existing.value])) else Refuse(TaskConflict)
      else Upsert(rows, now, r, id)
  }

  function Upsert(rows: seq<Task>, now: nat, r: Request, id: nat): Answer {
    var t := NewTask(id, now, r);
    var same := IndexOfKey(rows, KeyOf(t), |rows|);
    if same.Some? then
      var found := rows[same.value];
      if found.state.Cancelled? && found.raw.None?
      then Ok(rows[same.value := Requeued(found)], Some(Requeued(found))) else Refuse(TaskConflict)
    else if IndexOf(rows, id, |rows|).Some? then Refuse(DuplicateId)
    else Ok(rows + [t], Some(t))
  }

  predicate AnyReconcile(rows: seq<Task>) {
    exists i :: 0 <= i < |rows| && rows[i].state.Reconcile?
  }

  predicate AnyRunning(rows: seq<Task>, now: nat) {
    exists i :: 0 <= i < |rows| && rows[i].state.Running? && LockedPast(rows[i], now)
  }

  /** `claim`: signed work first, one signer at a time, nothing while a row awaits reconciliation. */
  function ClaimNext(rows: seq<Task>, now: nat, chainTime: nat, token: nat): Answer {
    if chainTime >= TIME_LIMIT then Refuse(InvalidInput) else
    var rows := EachExhausted(rows, now);
    if AnyReconcile(rows) then Ok(rows, None)
    else
      var signed := First(rows, SignedQuery, |rows|);
      if signed.Some? && (LockedPast(rows[signed.value], now) || rows[signed.value].nextAttemptAt > now)
      then Ok(rows, None)
      else
        var job := if signed.Some? then signed else First(rows, DueQuery(chainTime, now), |rows|);
        if job.None? || AnyRunning(rows, now) then Ok(rows, None)
        else
          var t := Claimed(rows[job.value], token, now);
          Ok(rows[job.value := t], Some(t))
  }

  /** Signed bytes that do exactly what the task schedules. */
  predicate Faithful(raw: SignedTx, t: Task, env: Env) {
    && raw.chainId == env.chainId && raw.value == 0 && raw.signed
    && t.lease in env.contracts && raw.to == env.contracts[t.lease]
    && raw.call == CallFor(t.kind, t.caseId)
  }

  function Prepare(rows: seq<Task>, now: nat, id: nat, token: nat, raw: SignedTx, env: Env): Answer {
    var i := Owned(rows, id, token, now, {Running});
    if i.None? then Refuse(LockLost)
    else if !Faithful(raw, rows[i.value], env) then Refuse(BadTransaction)
    else Ok(rows[i.value := Signed(rows[i.value], raw)], Some(Signed(rows[i.value], raw)))
  }

  function MarkBroadcast(rows: seq<Task>, now: nat, id: nat, token: nat): Answer {
    var i := Owned(rows, id, token, now, {Prepared, Broadcast});
    if i.None? then Refuse(LockLost)
    else Ok(rows[i.value := Sent(rows[i.value], now)], Some(Sent(rows[i.value], now)))
  }

  /** A receipt counts only for this row's own bytes. */
  predicate ReceiptFits(t: Task, r: Receipt) {
    t.raw == Some(r.tx) && r.wellFormed
  }

  function Complete(rows: seq<Task>, now: nat, id: nat, token: nat, receipt: Option<Receipt>): Answer {
    var i := Owned(rows, id, token, now, {Prepared, Broadcast});
    if i.None? then Refuse(LockLost)
    else if receipt.None? then Ok(rows, None)
    else if !ReceiptFits(rows[i.value], receipt.value) then Refuse(BadReceipt)
    else
      var t := Unlocked(Receipted(rows[i.value], receipt.value));
      Ok(rows[i.value := t], Some(t))
  }

  function Settle(rows: seq<Task>, id: nat, receipt: Option<Receipt>): Answer {
    var i := IndexOf(rows, id, |rows|);
    if i.None? || !rows[i.value].state.Reconcile? then Refuse(TaskConflict)
    else if receipt.None? then Ok(rows, None)
    else if !ReceiptFits(rows[i.value], receipt.value) then Refuse(BadReceipt)
    else Ok(rows[i.value := Receipted(rows[i.value], receipt.value)], Some(Receipted(rows[i.value], receipt.value)))
  }

  function Retry(rows: seq<Task>, now: nat, id: nat, token: nat): Answer {
    var i := Owned(rows, id, token, now, {Running, Prepared, Broadcast});
    if i.None? then Refuse(LockLost)
    else Ok(rows[i.value := Retried(rows[i.value], now)], Some(Retried(rows[i.value], now)))
  }

  function Cancel(rows: seq<Task>, now: nat, id: nat, token: nat): Answer {
    var i := Owned(rows, id, token, now, {Running});
    if i.None? then Refuse(LockLost)
    else if rows[i.value].raw.Some? then Ok(rows, None)
    else
      var t := Unlocked(rows[i.value].(state := TaskState.Cancelled));
      Ok(rows[i.value := t], Some(t))
  }

  // ---------- interleavings ----------

  datatype StoreCall =
    | CallEnqueue(request: Request, lease: Option<LeaseRow>, checkpoint: Option<BlockRef>, freshId: nat)
    | CallClaim(chainTime: nat, newToken: nat)
    | CallPrepare(id: nat, token: nat, raw: SignedTx)
    | CallBroadcast(id: nat, token: nat)
    | CallComplete(id: nat, token: nat, receipt: Option<Receipt>)
    | CallReconcile(id: nat, receipt: Option<Receipt>)
    | CallRetry(id: nat, token: nat)
    | CallCancel(id: nat, token: nat)
    | CallInvalidate(invalidLease: nat)

  function Apply(rows: seq<Task>, now: nat, call: StoreCall, env: Env): Answer {
    match call
    case CallEnqueue(r, lease, checkpoint, id) => Enqueue(rows, now, r, lease, checkpoint, id)
    case CallClaim(chainTime, token) => ClaimNext(rows, now, chainTime, token)
    case CallPrepare(id, token, raw) => Prepare(rows, now, id, token, raw, env)
    case CallBroadcast(id, token) => MarkBroadcast(rows, now, id, token)
    case CallComplete(id, token, receipt) => Complete(rows, now, id, token, receipt)
    case CallReconcile(id, receipt) => Settle(rows, id, receipt)
    case CallRetry(id, token) => Retry(rows, now, id, token)
    case CallCancel(id, token) => Cancel(rows, now, id, token)
    case CallInvalidate(lease) => Ok(EachInvalidated(rows, lease), None)
  }

  function RowsAfter(a: Answer, before: seq<Task>): seq<Task> {
    if a.Ok? then a.rows else before
  }

  /** One step of any process at a moment of the shared clock. */
  datatype Timed = Timed(now: nat, call: StoreCall)

  predicate InOrder(start: nat, steps: seq<Timed>)
    decreases |steps|
  {
    steps != [] ==> start <= steps[0].now && InOrder(steps[0].now, steps[1..])
  }

  function StoreRun(rows: seq<Task>, steps: seq<Timed>, env: Env): seq<Task>
    decreases |steps|
  {
    if steps == [] then rows
    else StoreRun(RowsAfter(Apply(rows, steps[0].now, steps[0].call, env), rows), steps[1..], env)
  }

  function EndTime(start: nat, steps: seq<Timed>): nat {
    if steps == [] then start else steps[|steps| - 1].now
  }
}
