/** The task store as an object whose rows the workers' calls change in place
    (apps/web/src/server/worker-tasks.ts:28-331). */
module TaskStoreClass {
  import opened Options
  import Spec = WorkerTasks
  import Safety = TaskSafety

  /** What every method promises: it answered as specified, a refusal changed nothing, and the table stays in
      order with its signed bytes kept. */
  predicate Follows(a: Spec.Answer, before: seq<Spec.Task>, after: seq<Spec.Task>, now: nat, env: Spec.Env,
                    err: Option<Spec.TaskError>, row: Option<Spec.Task>) {
    && after == Spec.RowsAfter(a, before)
    && (a.Refuse? ==> err == Some(a.error) && row.None?)
    && (a.Ok? ==> err.None? && row == a.row)
    && (Safety.TableOk(before, now, env) ==> Safety.TableOk(after, now, env) && Safety.Persists(before, after))
  }

  class TaskStore {
    const env: Spec.Env
    var rows: seq<Spec.Task>

    constructor (e: Spec.Env)
      ensures rows == [] && env == e && Safety.TableOk(rows, 0, env)
    {
      rows, env := [], e;
    }

    /** Orderly rows stay orderly, whichever call it was. */
    lemma Kept(before: seq<Spec.Task>, now: nat, call: Spec.StoreCall)
      ensures Safety.TableOk(before, now, env) ==>
        var after := Spec.RowsAfter(Spec.Apply(before, now, call, env), before);
        Safety.TableOk(after, now, env) && Safety.Persists(before, after)
    {
      hide Safety.TableOk, Spec.Apply;
      if Safety.TableOk(before, now, env) { Safety.StepKeeps(before, now, call, env); }
    }

    method Enqueue(now: nat, r: Spec.Request, lease: Option<Spec.LeaseRow>, checkpoint: Option<Spec.BlockRef>, id: nat)
      returns (err: Option<Spec.TaskError>, row: Option<Spec.Task>)
      modifies this
      ensures Follows(Spec.Enqueue(old(rows), now, r, lease, checkpoint, id), old(rows), rows, now, env, err, row)
    {
      hide Safety.TableOk, Safety.Persists, Spec.First, Spec.IndexOf, Spec.IndexOfKey, Spec.DeadlineCurrent;
      Kept(rows, now, Spec.CallEnqueue(r, lease, checkpoint, id));
      if r.dueAt == 0 || r.dueAt >= Spec.TIME_LIMIT { return Some(Spec.InvalidInput), None; }
      if lease.None? || lease.value.purged || checkpoint != Some(r.source) || lease.value.synced != Some(r.source) {
        return Some(Spec.SourceStale), None;
      }
      if !Spec.DeadlineCurrent(r, lease.value.snapshot) { return Some(Spec.DeadlineMismatch), None; }
      var existing := Spec.First(rows, Spec.SlotQuery(r.lease, r.kind, r.caseId), |rows|);
      if existing.Some? {
        var found := rows[existing.value];
        if found.dueAt != r.dueAt { return Some(Spec.TaskConflict), None; }
        return None, Some(found);
      }
      var row_ := Spec.NewTask(id, now, r);
      var same := Spec.IndexOfKey(rows, Spec.KeyOf(row_), |rows|);
      if same.None? {
        if Spec.IndexOf(rows, id, |rows|).Some? { return Some(Spec.DuplicateId), None; }
        rows := rows + [row_];
        return None, Some(row_);
      }
      var found := rows[same.value];
      if !found.state.Cancelled? || found.raw.Some? { return Some(Spec.TaskConflict), None; }
      found := found.(state := Spec.Queued, attempts := 0, nextAttemptAt := 0, lockToken := None, lockedUntil := None);
      rows := rows[same.value := found];
      return None, Some(found);
    }

    method Claim(now: nat, chainTime: nat, token: nat) returns (err: Option<Spec.TaskError>, row: Option<Spec.Task>)
      modifies this
      ensures Follows(Spec.ClaimNext(old(rows), now, chainTime, token),
                      old(rows), rows, now, env, err, row)
      ensures Safety.TableOk(old(rows), now, env) && row.Some? ==> Safety.Exclusive(rows, now)
    {
      hide Safety.TableOk, Safety.Persists, Safety.Exclusive, Spec.First, Spec.AnyRunning, Spec.AnyReconcile;
      hide Spec.EachExhausted;
      Kept(rows, now, Spec.CallClaim(chainTime, token));
      if Safety.TableOk(rows, now, env) && Safety.Claims(rows, now, Spec.CallClaim(chainTime, token)) {
        Safety.ClaimExclusive(rows, now, chainTime, token, env);
      }
      if chainTime >= Spec.TIME_LIMIT { return Some(Spec.InvalidInput), None; }
      err, row := None, None;
      rows := Spec.EachExhausted(rows, now);
      if Spec.AnyReconcile(rows) { return; }
      var job := Spec.First(rows, Spec.SignedQuery, |rows|);
      if job.Some? {
        var signed := rows[job.value];
        if Spec.LockedPast(signed, now) || signed.nextAttemptAt > now { return; }
      } else {
        job := Spec.First(rows, Spec.DueQuery(chainTime, now), |rows|);
      }
      if job.None? || Spec.AnyRunning(rows, now) { return; }
      var t := rows[job.value];
      t := t.(state := if t.raw.None? then Spec.Running else t.state, attempts := t.attempts + 1,
              lockToken := Some(token), lockedUntil := Some(now + Spec.LOCK_TIME));
      rows := rows[job.value := t];
      row := Some(t);
    }

    /** The row a worker still holds: `owned`. */
    method Owned(id: nat, token: nat, now: nat, states: set<Spec.TaskState>) returns (i: Option<nat>)
      ensures i == Spec.Owned(rows, id, token, now, states)
    {
      i := Spec.IndexOf(rows, id, |rows|);
      if i.None? { return; }
      var t := rows[i.value];
      var expired := t.lockedUntil.None? || t.lockedUntil.value <= now;
      if t.lockToken != Some(token) || expired || t.state !in states { i := None; }
    }

    method Prepare(now: nat, id: nat, token: nat, raw: Spec.SignedTx)
      returns (err: Option<Spec.TaskError>, row: Option<Spec.Task>)
      modifies this
      ensures Follows(Spec.Prepare(old(rows), now, id, token, raw, env), old(rows), rows, now, env, err, row)
    {
      hide Safety.TableOk, Safety.Persists, Spec.Owned, Spec.Faithful;
      Kept(rows, now, Spec.CallPrepare(id, token, raw));
      var i := Owned(id, token, now, {Spec.Running});
      if i.None? { return Some(Spec.LockLost), None; }
      if !Spec.Faithful(raw, rows[i.value], env) { return Some(Spec.BadTransaction), None; }
      var t := rows[i.value].(state := Spec.Prepared, raw := Some(raw));
      rows := rows[i.value := t];
      return None, Some(t);
    }

    method MarkBroadcast(now: nat, id: nat, token: nat) returns (err: Option<Spec.TaskError>, row: Option<Spec.Task>)
      modifies this
      ensures Follows(Spec.MarkBroadcast(old(rows), now, id, token), old(rows), rows, now, env, err, row)
    {
      hide Safety.TableOk, Safety.Persists, Spec.Owned;
      Kept(rows, now, Spec.CallBroadcast(id, token));
      var i := Owned(id, token, now, {Spec.Prepared, Spec.Broadcast});
      if i.None? { return Some(Spec.LockLost), None; }
      var t := rows[i.value].(state := Spec.Broadcast, lockToken := None, lockedUntil := None,
                              nextAttemptAt := now + Spec.REST_TIME);
      rows := rows[i.value := t];
      return None, Some(t);
    }

    method Complete(now: nat, id: nat, token: nat, receipt: Option<Spec.Receipt>)
      returns (err: Option<Spec.TaskError>, row: Option<Spec.Task>)
      modifies this
      ensures Follows(Spec.Complete(old(rows), now, id, token, receipt), old(rows), rows, now, env, err, row)
    {
      hide Safety.TableOk, Safety.Persists, Spec.Owned;
      Kept(rows, now, Spec.CallComplete(id, token, receipt));
      var i := Owned(id, token, now, {Spec.Prepared, Spec.Broadcast});
      if i.None? { return Some(Spec.LockLost), None; }
      if receipt.None? { return None, None; }
      if !Spec.ReceiptFits(rows[i.value], receipt.value) { return Some(Spec.BadReceipt), None; }
      var t := rows[i.value].(state := if receipt.value.success then Spec.Confirmed else Spec.Failed,
                              lockToken := None, lockedUntil := None);
      rows := rows[i.value := t];
      return None, Some(t);
    }

    method Settle(now: nat, id: nat, receipt: Option<Spec.Receipt>)
      returns (err: Option<Spec.TaskError>, row: Option<Spec.Task>)
      modifies this
      ensures Follows(Spec.Settle(old(rows), id, receipt), old(rows), rows, now, env, err, row)
    {
      hide Safety.TableOk, Safety.Persists, Spec.IndexOf;
      Kept(rows, now, Spec.CallReconcile(id, receipt));
      var i := Spec.IndexOf(rows, id, |rows|);
      if i.None? || !rows[i.value].state.Reconcile? { return Some(Spec.TaskConflict), None; }
      if receipt.None? { return None, None; }
      if !Spec.ReceiptFits(rows[i.value], receipt.value) { return Some(Spec.BadReceipt), None; }
      var t := rows[i.value].(state := if receipt.value.success then Spec.Confirmed else Spec.Failed);
      rows := rows[i.value := t];
      return None, Some(t);
    }

    method Retry(now: nat, id: nat, token: nat) returns (err: Option<Spec.TaskError>, row: Option<Spec.Task>)
      modifies this
      ensures Follows(Spec.Retry(old(rows), now, id, token), old(rows), rows, now, env, err, row)
    {
      hide Safety.TableOk, Safety.Persists, Spec.Owned;
      Kept(rows, now, Spec.CallRetry(id, token));
      var i := Owned(id, token, now, {Spec.Running, Spec.Prepared, Spec.Broadcast});
      if i.None? { return Some(Spec.LockLost), None; }
      var t := rows[i.value];
      var state := if t.raw.Some? then Spec.Reconcile
                   else if t.attempts >= Spec.MAX_ATTEMPTS then Spec.Failed else Spec.Queued;
      t := t.(state := state, lockToken := None, lockedUntil := None, nextAttemptAt := now + Spec.REST_TIME);
      rows := rows[i.value := t];
      return None, Some(t);
    }

    method Cancel(now: nat, id: nat, token: nat) returns (err: Option<Spec.TaskError>, row: Option<Spec.Task>)
      modifies this
      ensures Follows(Spec.Cancel(old(rows), now, id, token), old(rows), rows, now, env, err, row)
    {
      hide Safety.TableOk, Safety.Persists, Spec.Owned;
      Kept(rows, now, Spec.CallCancel(id, token));
      var i := Owned(id, token, now, {Spec.Running});
      if i.None? { return Some(Spec.LockLost), None; }
      var t := rows[i.value];
      if t.raw.Some? { return None, None; }
      t := t.(state := Spec.TaskState.Cancelled, lockToken := None, lockedUntil := None);
      rows := rows[i.value := t];
      return None, Some(t);
    }

    /** `invalidateWorkerTasks`, in the transaction that rolls a lease back. */
    method Invalidate(now: nat, lease: nat)
      modifies this
      ensures rows == Spec.EachInvalidated(old(rows), lease)
      ensures Safety.TableOk(old(rows), now, env) ==> Safety.TableOk(rows, now, env) && Safety.Persists(old(rows), rows)
    {
      hide Safety.TableOk, Safety.Persists;
      Kept(rows, now, Spec.CallInvalidate(lease));
      rows := Spec.EachInvalidated(rows, lease);
    }
  }
}
