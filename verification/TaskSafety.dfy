/** What the task table keeps under every interleaving of workers, retries, lock expiry and reorganizations. */
module TaskSafety {
  import opened Options
  import opened EscrowTypes
  import opened EscrowSpec
  import opened WorkerActions
  import opened WorkerTasks

  /** A row that may have a transaction in flight: signed and not settled, or being signed under a held lock. */
  predicate Live(t: Task, now: nat) {
    t.state.Prepared? || t.state.Broadcast? || (t.state.Running? && LockedPast(t, now))
  }

  /** Signed bytes and locks go with the states; the bytes do what the task says. */
  predicate RowOk(t: Task, env: Env) {
    && (t.state.Queued? || t.state.Running? || t.state.Cancelled? ==> t.raw.None?)
    && (t.state.Prepared? || t.state.Broadcast? || t.state.Confirmed? || t.state.Reconcile? ==> t.raw.Some?)
    && (t.raw.Some? ==> Faithful(t.raw.value, t, env))
    && (t.lockToken.Some? <==> t.lockedUntil.Some?)
    && (t.state.Running? ==> t.lockedUntil.Some?)
    && (t.lockedUntil.Some? ==> t.state.Running? || t.state.Prepared? || t.state.Broadcast?)
    && t.attempts <= MAX_ATTEMPTS
  }

  predicate RowsOk(rows: seq<Task>, env: Env) {
    forall i :: 0 <= i < |rows| ==> RowOk(rows[i], env)
  }

  predicate SingleFlight(rows: seq<Task>, now: nat) {
    forall i, j :: 0 <= i < j < |rows| ==> !(Live(rows[i], now) && Live(rows[j], now))
  }

  predicate SameSlot(t: Task, u: Task) {
    t.lease == u.lease && t.kind == u.kind && t.caseId == u.caseId
  }

  predicate Deduplicated(rows: seq<Task>) {
    forall i, j :: 0 <= i < j < |rows| ==>
      SameSlot(rows[i], rows[j]) ==> rows[i].state.Cancelled? || rows[j].state.Cancelled?
  }

  /** The two unique columns of the table. */
  predicate UniqueColumns(rows: seq<Task>) {
    && (forall i, j :: 0 <= i < j < |rows| ==> rows[i].id != rows[j].id)
    && (forall i, j :: 0 <= i < j < |rows| ==> KeyOf(rows[i]) != KeyOf(rows[j]))
  }

  predicate TableOk(rows: seq<Task>, now: nat, env: Env) {
    RowsOk(rows, env) && SingleFlight(rows, now) && Deduplicated(rows) && UniqueColumns(rows)
  }

  /** The same row, its signed bytes kept. */
  predicate SameRow(t: Task, u: Task) {
    u.id == t.id && KeyOf(u) == KeyOf(t) && (t.raw.Some? ==> u.raw == t.raw)
  }

  /** Rows are only added; identity and signed bytes never change. */
  predicate Persists(rows: seq<Task>, rows': seq<Task>) {
    && |rows| <= |rows'|
    && forall i :: 0 <= i < |rows| ==> SameRow(rows[i], rows'[i])
  }

  /** A change of a row that starts nothing. */
  predicate Milder(t: Task, u: Task, now: nat, env: Env) {
    && SameRow(t, u) && RowOk(u, env)
    && (Live(u, now) ==> Live(t, now)) && (t.state.Cancelled? ==> u.state.Cancelled?)
  }

  lemma MilderKeeps(rows: seq<Task>, rows': seq<Task>, now: nat, env: Env)
    requires TableOk(rows, now, env) && |rows'| == |rows|
    requires forall i :: 0 <= i < |rows| ==> Milder(rows[i], rows'[i], now, env)
    ensures TableOk(rows', now, env) && Persists(rows, rows')
  {
    hide RowOk, Live, LockedPast;
  }

  lemma MilderAt(rows: seq<Task>, i: nat, u: Task, now: nat, env: Env)
    requires TableOk(rows, now, env) && i < |rows| && Milder(rows[i], u, now, env)
    ensures TableOk(rows[i := u], now, env) && Persists(rows, rows[i := u])
  {
    forall j | 0 <= j < |rows| ensures Milder(rows[j], rows[i := u][j], now, env) {
      Unchanged(rows[j], now, env);
    }
    hide Milder, TableOk;
    MilderKeeps(rows, rows[i := u], now, env);
  }

  lemma Unchanged(t: Task, now: nat, env: Env)
    requires RowOk(t, env)
    ensures Milder(t, t, now, env)
  {
  }

  /** Locks only run out as time passes. */
  lemma LaterKeeps(rows: seq<Task>, now: nat, later: nat, env: Env)
    requires TableOk(rows, now, env) && now <= later
    ensures TableOk(rows, later, env)
  {
    assert forall i :: 0 <= i < |rows| ==> (Live(rows[i], later) ==> Live(rows[i], now));
    hide Live, RowOk;
  }

  lemma InvalidateKeeps(rows: seq<Task>, now: nat, lease: nat, env: Env)
    requires TableOk(rows, now, env)
    ensures TableOk(EachInvalidated(rows, lease), now, env) && Persists(rows, EachInvalidated(rows, lease))
  {
    forall i | 0 <= i < |rows| ensures Milder(rows[i], Invalidated(rows[i], lease), now, env) {
      InvalidatedMilder(rows[i], lease, now, env);
    }
    hide Milder, TableOk, Invalidated;
    MilderKeeps(rows, EachInvalidated(rows, lease), now, env);
  }

  lemma InvalidatedMilder(t: Task, lease: nat, now: nat, env: Env)
    requires RowOk(t, env)
    ensures Milder(t, Invalidated(t, lease), now, env)
  {
  }

  lemma ExhaustedMilder(t: Task, now: nat, env: Env)
    requires RowOk(t, env)
    ensures Milder(t, Exhausted(t, now), now, env)
  {
  }

  lemma ExhaustKeeps(rows: seq<Task>, now: nat, env: Env)
    requires TableOk(rows, now, env)
    ensures TableOk(EachExhausted(rows, now), now, env) && Persists(rows, EachExhausted(rows, now))
  {
    forall i | 0 <= i < |rows| ensures Milder(rows[i], Exhausted(rows[i], now), now, env) {
      ExhaustedMilder(rows[i], now, env);
    }
    hide Milder, TableOk, Exhausted;
    MilderKeeps(rows, EachExhausted(rows, now), now, env);
  }

  /** Starting work on a row is safe when nothing else is live. */
  lemma StartKeeps(rows: seq<Task>, i: nat, u: Task, now: nat, env: Env)
    requires TableOk(rows, now, env) && i < |rows|
    requires SameRow(rows[i], u) && RowOk(u, env) && !rows[i].state.Cancelled?
    requires forall j :: 0 <= j < |rows| && j != i ==> !Live(rows[j], now)
    ensures TableOk(rows[i := u], now, env) && Persists(rows, rows[i := u])
  {
    hide RowOk, Live;
  }

  /** What lets a claim start: no other row is live, because the chosen one is the oldest signed row or
      there is none, and no unexpired lock is held on a running one. */
  lemma NothingElseLive(rows: seq<Task>, i: nat, now: nat, env: Env)
    requires TableOk(rows, now, env) && i < |rows| && !AnyRunning(rows, now)
    requires Live(rows[i], now) || First(rows, SignedQuery, |rows|).None?
    ensures forall j :: 0 <= j < |rows| && j != i ==> !Live(rows[j], now)
  {
    forall j | 0 <= j < |rows| && j != i ensures !Live(rows[j], now) {
      if First(rows, SignedQuery, |rows|).None? {
        assert !Selects(SignedQuery, rows[j]);
      }
    }
    hide RowOk;
  }

  lemma ClaimedOk(t: Task, token: nat, now: nat, env: Env)
    requires RowOk(t, env) && t.attempts < MAX_ATTEMPTS
    requires t.state.Queued? || t.state.Running? || t.state.Prepared? || t.state.Broadcast?
    ensures RowOk(Claimed(t, token, now), env) && SameRow(t, Claimed(t, token, now))
  {
  }

  /** After the exhausted rows are set aside, an unlocked signed row has attempts left. */
  lemma AttemptsLeft(t: Task, now: nat)
    requires Selects(SignedQuery, Exhausted(t, now)) && !LockedPast(Exhausted(t, now), now)
    ensures Exhausted(t, now).attempts < MAX_ATTEMPTS
  {
  }

  lemma ClaimKeeps(rows: seq<Task>, now: nat, chainTime: nat, token: nat, env: Env)
    requires TableOk(rows, now, env)
    ensures var rows' := RowsAfter(ClaimNext(rows, now, chainTime, token), rows);
      TableOk(rows', now, env) && Persists(rows, rows')
  {
    hide TableOk, RowOk, RowsOk, Live, SameRow, Exhausted, Claimed, LockedPast, First, AnyRunning;
    ExhaustKeeps(rows, now, env);
    var rs := EachExhausted(rows, now);
    var a := ClaimNext(rows, now, chainTime, token);
    PersistsRefl(rows);
    if a.Ok? && a.row.Some? {
      var signed := First(rs, SignedQuery, |rs|);
      var i := if signed.Some? then signed.value else First(rs, DueQuery(chainTime, now), |rs|).value;
      if signed.Some? { SignedIsLive(rs[i], now); AttemptsLeft(rows[i], now); }
      NothingElseLive(rs, i, now, env);
      RowOf(rs, i, now, env);
      ClaimedOk(rs[i], token, now, env);
      StartKeeps(rs, i, Claimed(rs[i], token, now), now, env);
      PersistsTrans(rows, rs, a.rows);
    }
  }

  lemma SignedIsLive(t: Task, now: nat)
    requires Selects(SignedQuery, t)
    ensures Live(t, now)
  {
  }

  lemma RowOf(rows: seq<Task>, i: nat, now: nat, env: Env)
    requires TableOk(rows, now, env) && i < |rows|
    ensures RowOk(rows[i], env)
  {
  }

  lemma PersistsTrans(rows: seq<Task>, rows': seq<Task>, rows'': seq<Task>)
    requires Persists(rows, rows') && Persists(rows', rows'')
    ensures Persists(rows, rows'')
  {
  }

  lemma PersistsRefl(rows: seq<Task>)
    ensures Persists(rows, rows)
  {
  }

  /** A change of one owned or named row. */
  lemma RowKeeps(rows: seq<Task>, i: nat, u: Task, now: nat, env: Env)
    requires TableOk(rows, now, env) && i < |rows|
    requires RowOk(rows[i], env) ==> Milder(rows[i], u, now, env)
    ensures TableOk(rows[i := u], now, env) && Persists(rows, rows[i := u])
  {
    hide Milder, TableOk;
    RowOf(rows, i, now, env);
    MilderAt(rows, i, u, now, env);
  }

  lemma AllPersist(rows: seq<Task>)
    ensures Persists(rows, rows)
  {
  }

  /** Inserting or reviving, when the action has no live row. */
  lemma UpsertKeeps(rows: seq<Task>, now: nat, r: Request, id: nat, env: Env)
    requires TableOk(rows, now, env) && Upsert(rows, now, r, id).Ok?
    requires forall j :: 0 <= j < |rows| ==> !Selects(SlotQuery(r.lease, r.kind, r.caseId), rows[j])
    ensures TableOk(Upsert(rows, now, r, id).rows, now, env) && Persists(rows, Upsert(rows, now, r, id).rows)
  {
    hide IndexOf, IndexOfKey, RowOk;
    var same := IndexOfKey(rows, KeyOf(NewTask(id, now, r)), |rows|);
    if same.Some? { Revived(rows[same.value], env); } else { FreshOk(id, now, r, env); }
  }

  lemma EnqueueKeeps(rows: seq<Task>, now: nat, r: Request, lease: Option<LeaseRow>, checkpoint: Option<BlockRef>, id: nat,
                     env: Env)
    requires TableOk(rows, now, env)
    ensures var rows' := RowsAfter(Enqueue(rows, now, r, lease, checkpoint, id), rows);
      TableOk(rows', now, env) && Persists(rows, rows')
  {
    hide First, IndexOf, IndexOfKey, DeadlineCurrent, SourceCurrent, RowOk, Upsert, TableOk, Persists;
    var a := Enqueue(rows, now, r, lease, checkpoint, id);
    AllPersist(rows);
    if a.Ok? && First(rows, SlotQuery(r.lease, r.kind, r.caseId), |rows|).None? {
      UpsertKeeps(rows, now, r, id, env);
    }
  }

  lemma Revived(t: Task, env: Env)
    requires RowOk(t, env) && t.state.Cancelled?
    ensures RowOk(Requeued(t), env)
  {
  }

  lemma FreshOk(id: nat, now: nat, r: Request, env: Env)
    ensures RowOk(NewTask(id, now, r), env)
  {
  }

  /** Every step of every process keeps the table in order, and keeps what is signed. */
  lemma StepKeeps(rows: seq<Task>, now: nat, call: StoreCall, env: Env)
    requires TableOk(rows, now, env)
    ensures var rows' := RowsAfter(Apply(rows, now, call, env), rows);
      TableOk(rows', now, env) && Persists(rows, rows')
  {
    hide TableOk, Enqueue, ClaimNext;
    PersistsRefl(rows);
    match call
    case CallEnqueue(r, lease, checkpoint, id) => EnqueueKeeps(rows, now, r, lease, checkpoint, id, env);
    case CallClaim(chainTime, token) => ClaimKeeps(rows, now, chainTime, token, env);
    case CallInvalidate(lease) => InvalidateKeeps(rows, now, lease, env);
    case _ => RowCallKeeps(rows, now, call, env);
  }

  lemma RowCallKeeps(rows: seq<Task>, now: nat, call: StoreCall, env: Env)
    requires TableOk(rows, now, env)
    requires !call.CallEnqueue? && !call.CallClaim? && !call.CallInvalidate?
    ensures var rows' := RowsAfter(Apply(rows, now, call, env), rows);
      TableOk(rows', now, env) && Persists(rows, rows')
  {
    hide TableOk, Persists, CallFor;
    PersistsRefl(rows);
    match call
    case CallPrepare(id, token, raw) =>
      var i := Owned(rows, id, token, now, {Running});
      if i.Some? && Faithful(raw, rows[i.value], env) {
        SignedMilder(rows[i.value], raw, now, env);
        RowKeeps(rows, i.value, Signed(rows[i.value], raw), now, env);
      }
    case CallBroadcast(id, token) =>
      var i := Owned(rows, id, token, now, {Prepared, Broadcast});
      if i.Some? { RowKeeps(rows, i.value, Sent(rows[i.value], now), now, env); }
    case CallComplete(id, token, r) =>
      var i := Owned(rows, id, token, now, {Prepared, Broadcast});
      if i.Some? && r.Some? { RowKeeps(rows, i.value, Unlocked(Receipted(rows[i.value], r.value)), now, env); }
    case CallReconcile(id, r) =>
      var i := IndexOf(rows, id, |rows|);
      if i.Some? && rows[i.value].state.Reconcile? && r.Some? {
        RowKeeps(rows, i.value, Receipted(rows[i.value], r.value), now, env);
      }
    case CallRetry(id, token) =>
      var i := Owned(rows, id, token, now, {Running, Prepared, Broadcast});
      if i.Some? { RowKeeps(rows, i.value, Retried(rows[i.value], now), now, env); }
    case CallCancel(id, token) =>
      var i := Owned(rows, id, token, now, {Running});
      if i.Some? { RowKeeps(rows, i.value, Unlocked(rows[i.value].(state := TaskState.Cancelled)), now, env); }
  }

  lemma SignedMilder(t: Task, raw: SignedTx, now: nat, env: Env)
    requires t.state.Running? && LockedPast(t, now) && Faithful(raw, t, env)
    ensures RowOk(t, env) ==> Milder(t, Signed(t, raw), now, env)
  {
  }

  /** An empty table is in order. */
  lemma EmptyOk(now: nat, env: Env)
    ensures TableOk([], now, env)
  {
  }

  /** Under every interleaving: single flight, deduplication, states and bytes in agreement, and bytes written
      at most once. */
  lemma {:induction false} StoreRunKeeps(rows: seq<Task>, start: nat, steps: seq<Timed>, env: Env)
    requires TableOk(rows, start, env) && InOrder(start, steps)
    ensures TableOk(StoreRun(rows, steps, env), EndTime(start, steps), env)
    ensures Persists(rows, StoreRun(rows, steps, env))
    decreases |steps|
  {
    hide TableOk, Apply;
    PersistsRefl(rows);
    if steps != [] {
      LaterKeeps(rows, start, steps[0].now, env);
      StepKeeps(rows, steps[0].now, steps[0].call, env);
      var rows' := RowsAfter(Apply(rows, steps[0].now, steps[0].call, env), rows);
      StoreRunKeeps(rows', steps[0].now, steps[1..], env);
      hide Persists;
      PersistsTrans(rows, rows', StoreRun(rows', steps[1..], env));
    }
  }

  // ---------- single flight as a count ----------

  function CountLive(rows: seq<Task>, now: nat): nat {
    if rows == [] then 0 else (if Live(rows[0], now) then 1 else 0) + CountLive(rows[1..], now)
  }

  lemma {:induction false} NoneLive(rows: seq<Task>, now: nat)
    ensures CountLive(rows, now) == 0 <==> forall i :: 0 <= i < |rows| ==> !Live(rows[i], now)
  {
    if rows != [] {
      NoneLive(rows[1..], now);
      assert forall i :: 0 < i < |rows| ==> rows[i] == rows[1..][i - 1];
    }
  }

  /** Prepared and broadcast rows, and running ones with an unexpired lock, number at most one. */
  lemma {:induction false} SingleFlightCount(rows: seq<Task>, now: nat)
    ensures SingleFlight(rows, now) <==> CountLive(rows, now) <= 1
  {
    hide Live;
    if rows != [] {
      SingleFlightCount(rows[1..], now);
      NoneLive(rows[1..], now);
      assert forall i :: 0 < i < |rows| ==> rows[i] == rows[1..][i - 1];
      if SingleFlight(rows[1..], now) && (Live(rows[0], now) ==> CountLive(rows[1..], now) == 0) {
        assert SingleFlight(rows, now);
      }
      if SingleFlight(rows, now) { assert SingleFlight(rows[1..], now); }
    }
  }

  lemma AtMostOneInFlight(steps: seq<Timed>, start: nat, env: Env)
    requires InOrder(start, steps)
    ensures CountLive(StoreRun([], steps, env), EndTime(start, steps)) <= 1
  {
    hide Apply;
    EmptyOk(start, env);
    StoreRunKeeps([], start, steps, env);
    SingleFlightCount(StoreRun([], steps, env), EndTime(start, steps));
  }

  // ---------- the upsert ----------

  /** With no live row for the action, the upsert always yields a row: its conflict branch is unreachable. */
  lemma UpsertYields(rows: seq<Task>, now: nat, r: Request, lease: Option<LeaseRow>, checkpoint: Option<BlockRef>, id: nat,
                     env: Env)
    requires TableOk(rows, now, env) && IndexOf(rows, id, |rows|).None?
    requires 0 < r.dueAt < TIME_LIMIT
    requires SourceCurrent(r, lease, checkpoint) && DeadlineCurrent(r, lease.value.snapshot)
    requires First(rows, SlotQuery(r.lease, r.kind, r.caseId), |rows|).None?
    ensures var a := Enqueue(rows, now, r, lease, checkpoint, id);
      && a.Ok? && a.row.Some? && a.row.value.state.Queued? && a.row.value.raw.None?
      && a.row.value.attempts == 0 && KeyOf(a.row.value) == KeyOf(NewTask(id, now, r))
  {
    hide First, IndexOf, IndexOfKey, DeadlineCurrent, SourceCurrent;
    var same := IndexOfKey(rows, KeyOf(NewTask(id, now, r)), |rows|);
    if same.Some? {
      assert !Selects(SlotQuery(r.lease, r.kind, r.caseId), rows[same.value]);
      RowOf(rows, same.value, now, env);
    }
  }

  /** So a current request conflicts exactly when the action already has a row with another deadline. */
  lemma ConflictExactly(rows: seq<Task>, now: nat, r: Request, lease: Option<LeaseRow>, checkpoint: Option<BlockRef>,
                        id: nat, env: Env)
    requires TableOk(rows, now, env) && IndexOf(rows, id, |rows|).None?
    requires 0 < r.dueAt < TIME_LIMIT
    requires SourceCurrent(r, lease, checkpoint) && DeadlineCurrent(r, lease.value.snapshot)
    ensures Enqueue(rows, now, r, lease, checkpoint, id) == Refuse(TaskConflict) <==>
      exists i :: 0 <= i < |rows| && Selects(SlotQuery(r.lease, r.kind, r.caseId), rows[i]) && rows[i].dueAt != r.dueAt
  {
    hide DeadlineCurrent, SourceCurrent, RowOk, Upsert;
    var q := SlotQuery(r.lease, r.kind, r.caseId);
    var first := First(rows, q, |rows|);
    if first.None? {
      UpsertYields(rows, now, r, lease, checkpoint, id, env);
    } else {
      forall i | 0 <= i < |rows| && Selects(q, rows[i]) ensures i == first.value {
        assert SameSlot(rows[i], rows[first.value]);
      }
    }
  }

  // ---------- reorganizations ----------

  /** In flight in the wider sense: also a signed row whose fate is unknown. */
  predicate InFlight(t: Task, now: nat) {
    Live(t, now) || t.state.Reconcile?
  }

  predicate Exclusive(rows: seq<Task>, now: nat) {
    forall i, j :: 0 <= i < j < |rows| ==> !(InFlight(rows[i], now) && InFlight(rows[j], now))
  }

  /** A claim that hands out a row leaves nothing else in flight, reconciliation included. */
  lemma ClaimExclusive(rows: seq<Task>, now: nat, chainTime: nat, token: nat, env: Env)
    requires TableOk(rows, now, env)
    requires ClaimNext(rows, now, chainTime, token).Ok? && ClaimNext(rows, now, chainTime, token).row.Some?
    ensures var a := ClaimNext(rows, now, chainTime, token);
      && Exclusive(a.rows, now)
      && exists i :: 0 <= i < |a.rows| && a.rows[i] == a.row.value && Live(a.rows[i], now)
                     && a.rows[i].lockToken == Some(token)
  {
    hide TableOk, RowOk, SameRow, Exhausted, First, AnyRunning;
    ExhaustKeeps(rows, now, env);
    var rs := EachExhausted(rows, now);
    var signed := First(rs, SignedQuery, |rs|);
    var i := if signed.Some? then signed.value else First(rs, DueQuery(chainTime, now), |rs|).value;
    if signed.Some? { SignedIsLive(rs[i], now); }
    NothingElseLive(rs, i, now, env);
    RowOf(rs, i, now, env);
    ClaimedLive(rs[i], token, now, env);
    assert ClaimNext(rows, now, chainTime, token).rows[i] == Claimed(rs[i], token, now);
  }

  /** A claim of unsigned work takes, of the rows that are due, untried enough and free, the one due first; it counts
      the attempt and locks it for the lock time. */
  lemma ClaimTakesEarliest(rows: seq<Task>, now: nat, chainTime: nat, token: nat, env: Env, j: nat)
    requires ClaimNext(rows, now, chainTime, token).Ok? && ClaimNext(rows, now, chainTime, token).row.Some?
    requires ClaimNext(rows, now, chainTime, token).row.value.raw.None?
    requires TableOk(rows, now, env)
    requires j < |rows| && Selects(DueQuery(chainTime, now), Exhausted(rows[j], now))
    ensures var t := ClaimNext(rows, now, chainTime, token).row.value;
      && t.state.Running? && t.dueAt <= chainTime && 1 <= t.attempts <= MAX_ATTEMPTS
      && t.lockToken == Some(token) && t.lockedUntil == Some(now + LOCK_TIME)
      && (t.dueAt < rows[j].dueAt || (t.dueAt == rows[j].dueAt && t.id <= rows[j].id))
  {
    hide First, AnyRunning, AnyReconcile, TableOk, RowOk;
    var rs := EachExhausted(rows, now);
    ExhaustKeeps(rows, now, env);
    var signed := First(rs, SignedQuery, |rs|);
    if signed.Some? { RowOf(rs, signed.value, now, env); SignedHasBytes(rs[signed.value], env); }
    assert rs[j] == Exhausted(rows[j], now);
    FirstIsFirst(rs, DueQuery(chainTime, now), |rs|, j);
    var i := First(rs, DueQuery(chainTime, now), |rs|).value;
    assert !Precedes(DueQuery(chainTime, now), rs[j], rs[i]);
  }

  lemma SignedHasBytes(t: Task, env: Env)
    requires RowOk(t, env) && Selects(SignedQuery, t)
    ensures t.raw.Some?
  {
  }

  lemma ClaimedLive(t: Task, token: nat, now: nat, env: Env)
    requires RowOk(t, env) && (t.state.Queued? || t.state.Running? || t.state.Prepared? || t.state.Broadcast?)
    ensures Live(Claimed(t, token, now), now) && Claimed(t, token, now).lockToken == Some(token)
  {
  }

  /** A change that puts nothing new in flight, even in the wider sense. */
  predicate Calmer(t: Task, u: Task, now: nat) {
    InFlight(u, now) ==> InFlight(t, now)
  }

  lemma CalmerKeeps(rows: seq<Task>, rows': seq<Task>, now: nat)
    requires Exclusive(rows, now) && |rows| <= |rows'|
    requires forall i :: 0 <= i < |rows| ==> Calmer(rows[i], rows'[i], now)
    requires forall i :: |rows| <= i < |rows'| ==> !InFlight(rows'[i], now)
    ensures Exclusive(rows', now)
  {
    hide InFlight;
  }

  /** Without a reorganization, at most one row is in flight even counting those awaiting reconciliation. */
  lemma ExclusiveKeeps(rows: seq<Task>, now: nat, call: StoreCall, env: Env)
    requires TableOk(rows, now, env) && Exclusive(rows, now) && !call.CallInvalidate?
    ensures Exclusive(RowsAfter(Apply(rows, now, call, env), rows), now)
  {
    var rows' := RowsAfter(Apply(rows, now, call, env), rows);
    if call.CallClaim? && Claims(rows, now, call) {
      hide ClaimNext, TableOk, Exclusive;
      ClaimExclusive(rows, now, call.chainTime, call.newToken, env);
    } else {
      StepCalm(rows, now, call, env);
      hide Calmer, Apply, TableOk, Exclusive;
      CalmerKeeps(rows, rows', now);
    }
  }

  /** A claim that hands out a row. */
  predicate Claims(rows: seq<Task>, now: nat, call: StoreCall)
    requires call.CallClaim?
  {
    var a := ClaimNext(rows, now, call.chainTime, call.newToken);
    a.Ok? && a.row.Some?
  }

  lemma StepCalm(rows: seq<Task>, now: nat, call: StoreCall, env: Env)
    requires TableOk(rows, now, env) && !call.CallInvalidate?
    requires call.CallClaim? ==> !Claims(rows, now, call)
    ensures var rows' := RowsAfter(Apply(rows, now, call, env), rows);
      && |rows| <= |rows'|
      && (forall i :: 0 <= i < |rows| ==> Calmer(rows[i], rows'[i], now))
      && (forall i :: |rows| <= i < |rows'| ==> !InFlight(rows'[i], now))
  {
    hide First, IndexOf, IndexOfKey, DeadlineCurrent, SourceCurrent, Faithful, UniqueColumns, Deduplicated, SingleFlight;
    match call
    case CallClaim(chainTime, token) =>
    case CallEnqueue(_, _, _, _) =>
    case _ =>
  }

  /** What a reorganization of a lease would put, or leave, in flight. */
  predicate ReopenedOrInFlight(t: Task, lease: nat, now: nat) {
    if t.lease == lease then t.raw.Some? else InFlight(t, now)
  }

  /** A reorganization sends settled work of its lease back to reconciliation, beside whatever else is in flight:
      the wider exclusion survives it exactly when at most one row is signed for that lease or in flight
      elsewhere. */
  lemma ReorganizedExactly(rows: seq<Task>, now: nat, lease: nat, env: Env)
    requires TableOk(rows, now, env)
    ensures Exclusive(EachInvalidated(rows, lease), now) <==>
      forall i, j :: 0 <= i < j < |rows| ==>
        !(ReopenedOrInFlight(rows[i], lease, now) && ReopenedOrInFlight(rows[j], lease, now))
  {
    forall i | 0 <= i < |rows|
      ensures InFlight(EachInvalidated(rows, lease)[i], now) <==> ReopenedOrInFlight(rows[i], lease, now)
    {
      RowOf(rows, i, now, env);
      ReopenedRow(rows[i], lease, now, env);
    }
    hide InFlight, ReopenedOrInFlight, TableOk, Invalidated;
    var rs := EachInvalidated(rows, lease);
    if Exclusive(rs, now) {
      forall i, j | 0 <= i < j < |rows|
        ensures !(ReopenedOrInFlight(rows[i], lease, now) && ReopenedOrInFlight(rows[j], lease, now)) {
        assert !(InFlight(rs[i], now) && InFlight(rs[j], now));
      }
    }
  }

  lemma ReopenedRow(t: Task, lease: nat, now: nat, env: Env)
    requires RowOk(t, env)
    ensures InFlight(Invalidated(t, lease), now) <==> ReopenedOrInFlight(t, lease, now)
  {
  }

  /** A reorganization that puts nothing in flight beside something else. */
  predicate Harmless(rows: seq<Task>, now: nat, call: StoreCall) {
    call.CallInvalidate? ==>
      forall i, j :: 0 <= i < j < |rows| ==>
        !(ReopenedOrInFlight(rows[i], call.invalidLease, now) && ReopenedOrInFlight(rows[j], call.invalidLease, now))
  }

  /** Every reorganization of the run meets that condition in the table it finds. */
  predicate HarmlessRun(rows: seq<Task>, steps: seq<Timed>, env: Env)
    decreases |steps|
  {
    steps != [] ==>
      && Harmless(rows, steps[0].now, steps[0].call)
      && HarmlessRun(RowsAfter(Apply(rows, steps[0].now, steps[0].call, env), rows), steps[1..], env)
  }

  lemma StepExclusive(rows: seq<Task>, now: nat, call: StoreCall, env: Env)
    requires TableOk(rows, now, env) && Exclusive(rows, now)
    ensures Exclusive(RowsAfter(Apply(rows, now, call, env), rows), now) <==> Harmless(rows, now, call)
  {
    hide TableOk, Exclusive, EachInvalidated, ReopenedOrInFlight;
    if call.CallInvalidate? {
      ReorganizedExactly(rows, now, call.invalidLease, env);
      InvalidateApplied(rows, now, call.invalidLease, env);
    } else {
      hide Apply;
      ExclusiveKeeps(rows, now, call, env);
    }
  }

  lemma InvalidateApplied(rows: seq<Task>, now: nat, lease: nat, env: Env)
    ensures RowsAfter(Apply(rows, now, CallInvalidate(lease), env), rows) == EachInvalidated(rows, lease)
  {
  }

  /** After every step the wider exclusion holds. */
  predicate ExclusiveThroughout(rows: seq<Task>, steps: seq<Timed>, env: Env)
    decreases |steps|
  {
    steps != [] ==>
      var after := RowsAfter(Apply(rows, steps[0].now, steps[0].call, env), rows);
      Exclusive(after, steps[0].now) && ExclusiveThroughout(after, steps[1..], env)
  }

  /** Along every run the wider exclusion holds throughout if and only if every reorganization in it is harmless; and
      then it holds at the end. */
  lemma {:induction false} ExclusiveRun(rows: seq<Task>, start: nat, steps: seq<Timed>, env: Env)
    requires TableOk(rows, start, env) && Exclusive(rows, start) && InOrder(start, steps)
    ensures ExclusiveThroughout(rows, steps, env) <==> HarmlessRun(rows, steps, env)
    ensures HarmlessRun(rows, steps, env) ==> Exclusive(StoreRun(rows, steps, env), EndTime(start, steps))
    decreases |steps|
  {
    hide TableOk, Apply, Exclusive, Harmless;
    if steps != [] {
      var now := steps[0].now;
      LaterKeeps(rows, start, now, env);
      LaterExclusive(rows, start, now);
      StepKeeps(rows, now, steps[0].call, env);
      StepExclusive(rows, now, steps[0].call, env);
      if Harmless(rows, now, steps[0].call) {
        ExclusiveRun(RowsAfter(Apply(rows, now, steps[0].call, env), rows), now, steps[1..], env);
      }
    }
  }

  lemma LaterExclusive(rows: seq<Task>, now: nat, later: nat)
    requires Exclusive(rows, now) && now <= later
    ensures Exclusive(rows, later)
  {
    assert forall i :: 0 <= i < |rows| ==> (InFlight(rows[i], later) ==> InFlight(rows[i], now));
    hide InFlight;
  }

  /** An expiry task for lease `l` of the snapshot, enqueued, claimed and signed, all at time 0. */
  function SigningSteps(s: State, l: nat, token: nat, raw: SignedTx): seq<Timed> {
    var source := BlockRef(1, 1);
    [Timed(0, CallEnqueue(Request(l, ExpireAction, None, s.terms.hardEndAt, source),
                          Some(LeaseRow(false, Some(source), s)), Some(source), l)),
     Timed(0, StoreCall.CallClaim(s.terms.hardEndAt, token)),
     Timed(0, CallPrepare(l, token, raw))]
  }

  function SignedExpiry(s: State, l: nat, token: nat, raw: SignedTx): Task {
    Task(l, l, ExpireAction, None, s.terms.hardEndAt, 1, 1, 0, Prepared, 1, 0, Some(token), Some(LOCK_TIME), Some(raw))
  }

  lemma SigningReaches(rows: seq<Task>, s: State, l: nat, token: nat, raw: SignedTx, env: Env)
    requires forall i :: 0 <= i < |rows| ==> rows[i].state.Confirmed? && rows[i].lease != l && rows[i].id != l
    requires Faithful(raw, SignedExpiry(s, l, token, raw), env) && 0 < s.terms.hardEndAt < TIME_LIMIT
    ensures StoreRun(rows, SigningSteps(s, l, token, raw), env) == rows + [SignedExpiry(s, l, token, raw)]
  {
    var steps := SigningSteps(s, l, token, raw);
    var queued := NewTask(l, 0, steps[0].call.request);
    var running := Claimed(queued, token, 0);
    QueuedNext(rows, s, l, steps[0].call);
    ClaimedNext(rows, queued, s.terms.hardEndAt, token);
    assert IndexOf(rows + [running], l, |rows| + 1) == Some(|rows|);
    assert (rows + [running])[|rows| := Signed(running, raw)] == rows + [SignedExpiry(s, l, token, raw)];
    hide First, IndexOf, IndexOfKey, Enqueue, ClaimNext;
    ThreeSteps(rows, rows + [queued], rows + [running], rows + [SignedExpiry(s, l, token, raw)], steps, env);
  }

  lemma QueuedNext(rows: seq<Task>, s: State, l: nat, call: StoreCall)
    requires forall i :: 0 <= i < |rows| ==> rows[i].lease != l && rows[i].id != l
    requires 0 < s.terms.hardEndAt < TIME_LIMIT
    requires var source := BlockRef(1, 1);
      call == CallEnqueue(Request(l, ExpireAction, None, s.terms.hardEndAt, source),
                          Some(LeaseRow(false, Some(source), s)), Some(source), l)
    ensures Enqueue(rows, 0, call.request, call.lease, call.checkpoint, l)
         == Ok(rows + [NewTask(l, 0, call.request)], Some(NewTask(l, 0, call.request)))
  {
  }

  lemma ClaimedNext(rows: seq<Task>, queued: Task, chainTime: nat, token: nat)
    requires forall i :: 0 <= i < |rows| ==> rows[i].state.Confirmed?
    requires queued.state.Queued? && queued.attempts == 0 && queued.nextAttemptAt == 0 && queued.raw.None?
    requires queued.dueAt <= chainTime < TIME_LIMIT
    ensures ClaimNext(rows + [queued], 0, chainTime, token)
         == Ok(rows + [Claimed(queued, token, 0)], Some(Claimed(queued, token, 0)))
  {
    var rows1 := rows + [queued];
    assert EachExhausted(rows1, 0) == rows1;
    FirstIsFirst(rows1, DueQuery(chainTime, 0), |rows1|, |rows|);
    hide First;
    assert rows1[|rows| := Claimed(queued, token, 0)] == rows + [Claimed(queued, token, 0)];
  }

  lemma ThreeSteps(rows: seq<Task>, rows1: seq<Task>, rows2: seq<Task>, rows3: seq<Task>, steps: seq<Timed>, env: Env)
    requires |steps| == 3
    requires RowsAfter(Apply(rows, steps[0].now, steps[0].call, env), rows) == rows1
    requires RowsAfter(Apply(rows1, steps[1].now, steps[1].call, env), rows1) == rows2
    requires RowsAfter(Apply(rows2, steps[2].now, steps[2].call, env), rows2) == rows3
    ensures StoreRun(rows, steps, env) == rows3
  {
    hide Apply;
    assert steps[1..][1..] == [steps[2]];
    OneStep(rows2, steps[2], env);
  }

  /** A reachable table in which the confirmed transaction of one lease is reopened while another lease has signed
      work: sign and confirm for lease 1, sign for lease 2, then a reorganization of lease 1. */
  lemma ReopenedBesideSigned(s: State, env: Env)
    requires 0 < s.terms.hardEndAt < TIME_LIMIT && env.contracts == map[1 := 11, 2 := 12]
    ensures exists steps :: InOrder(0, steps) && !Exclusive(StoreRun([], steps, env), EndTime(0, steps))
  {
    hide Apply, SigningSteps, EachInvalidated, InFlight;
    var raw1 := SignedTx(env.chainId, 11, 0, CallExpireEscrow, true, 0);
    var raw2 := SignedTx(env.chainId, 12, 0, CallExpireEscrow, true, 1);
    var one := ConfirmingSteps(s, raw1);
    var two := SigningSteps(s, 2, 8, raw2) + [Timed(0, CallInvalidate(1))];
    var t1 := Unlocked(SignedExpiry(s, 1, 7, raw1).(state := Confirmed));
    FirstConfirmed(s, raw1, env);
    SecondReopens(s, t1, raw2, env);
    RunAppend([], one, two, env);
    BothInFlight(s, raw1, raw2);
    StepsAtZero(s, raw1, raw2);
    AllAtZero(one + two);
  }

  /** Sign for lease 1, and confirm. */
  function ConfirmingSteps(s: State, raw: SignedTx): seq<Timed> {
    SigningSteps(s, 1, 7, raw) + [Timed(0, CallComplete(1, 7, Some(Receipt(raw, true, true))))]
  }

  lemma FirstConfirmed(s: State, raw: SignedTx, env: Env)
    requires Faithful(raw, SignedExpiry(s, 1, 7, raw), env) && 0 < s.terms.hardEndAt < TIME_LIMIT
    ensures StoreRun([], ConfirmingSteps(s, raw), env)
         == [Unlocked(SignedExpiry(s, 1, 7, raw).(state := Confirmed))]
  {
    hide Apply, SigningSteps, Faithful;
    var confirm := Timed(0, CallComplete(1, 7, Some(Receipt(raw, true, true))));
    SigningReaches([], s, 1, 7, raw, env);
    RunAppend([], SigningSteps(s, 1, 7, raw), [confirm], env);
    assert [] + [SignedExpiry(s, 1, 7, raw)] == [SignedExpiry(s, 1, 7, raw)];
    ConfirmReaches(s, raw, env);
  }

  /** Sign for lease 2 beside the confirmed row, then reorganize lease 1. */
  lemma SecondReopens(s: State, t1: Task, raw: SignedTx, env: Env)
    requires Faithful(raw, SignedExpiry(s, 2, 8, raw), env) && 0 < s.terms.hardEndAt < TIME_LIMIT
    requires t1.state.Confirmed? && t1.lease == 1 && t1.id == 1
    ensures StoreRun([t1], SigningSteps(s, 2, 8, raw) + [Timed(0, CallInvalidate(1))], env)
         == EachInvalidated([t1, SignedExpiry(s, 2, 8, raw)], 1)
  {
    hide Apply, SigningSteps, Faithful, EachInvalidated;
    var t2 := SignedExpiry(s, 2, 8, raw);
    var fork := Timed(0, CallInvalidate(1));
    SigningReaches([t1], s, 2, 8, raw, env);
    RunAppend([t1], SigningSteps(s, 2, 8, raw), [fork], env);
    assert [t1] + [t2] == [t1, t2];
    OneStep([t1, t2], fork, env);
    InvalidateApplied([t1, t2], 0, 1, env);
  }

  lemma BothInFlight(s: State, raw1: SignedTx, raw2: SignedTx)
    ensures var rows := EachInvalidated([Unlocked(SignedExpiry(s, 1, 7, raw1).(state := Confirmed)),
                                         SignedExpiry(s, 2, 8, raw2)], 1);
      |rows| == 2 && InFlight(rows[0], 0) && InFlight(rows[1], 0)
  {
  }

  lemma StepsAtZero(s: State, raw1: SignedTx, raw2: SignedTx)
    ensures var steps := ConfirmingSteps(s, raw1) + (SigningSteps(s, 2, 8, raw2) + [Timed(0, CallInvalidate(1))]);
      forall i :: 0 <= i < |steps| ==> steps[i].now == 0
  {
  }

  lemma ConfirmReaches(s: State, raw: SignedTx, env: Env)
    ensures StoreRun([SignedExpiry(s, 1, 7, raw)], [Timed(0, CallComplete(1, 7, Some(Receipt(raw, true, true))))], env)
         == [Unlocked(SignedExpiry(s, 1, 7, raw).(state := Confirmed))]
  {
    var t := SignedExpiry(s, 1, 7, raw);
    assert Owned([t], 1, 7, 0, {Prepared, Broadcast}) == Some(0);
    OneStep([t], Timed(0, CallComplete(1, 7, Some(Receipt(raw, true, true)))), env);
  }

  lemma {:induction false} AllAtZero(steps: seq<Timed>)
    requires forall i :: 0 <= i < |steps| ==> steps[i].now == 0
    ensures InOrder(0, steps) && EndTime(0, steps) == 0
  {
    if steps != [] { AllAtZero(steps[1..]); }
  }

  lemma {:induction false} RunAppend(rows: seq<Task>, one: seq<Timed>, two: seq<Timed>, env: Env)
    ensures StoreRun(rows, one + two, env) == StoreRun(StoreRun(rows, one, env), two, env)
    decreases |one|
  {
    hide Apply;
    if one == [] {
      assert one + two == two;
    } else {
      RunAppend(RowsAfter(Apply(rows, one[0].now, one[0].call, env), rows), one[1..], two, env);
      assert (one + two)[1..] == one[1..] + two;
    }
  }

  lemma OneStep(rows: seq<Task>, step: Timed, env: Env)
    ensures StoreRun(rows, [step], env) == RowsAfter(Apply(rows, step.now, step.call, env), rows)
  {
    hide Apply;
  }
}
