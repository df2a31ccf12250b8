/** One cycle of the executor as a sequence of effects on the task store, with anything other processes do to the
    store between two of its awaits (apps/worker/src/jobs/executor.ts:7-51). */
module ExecutorCycle {
  import opened Options
  import opened WorkerActions
  import opened WorkerTasks
  import opened TaskSafety
  import opened TaskStoreClass
  import opened ExecutorProtocol

  /** What happens before an effect of the cycle: other processes' calls, then the effect at `now`. */
  datatype Gap = Gap(others: seq<Timed>, now: nat)

  predicate GapOk(clock: nat, gap: Gap) {
    InOrder(clock, gap.others) && EndTime(clock, gap.others) <= gap.now
  }

  /** Time goes forward through the gaps. */
  predicate Forward(clock: nat, gaps: seq<Gap>) {
    forall k: nat :: k < |gaps| ==> GapOk(ClockBefore(clock, gaps, k), gaps[k])
  }

  function ClockBefore(clock: nat, gaps: seq<Gap>, k: nat): nat
    requires k <= |gaps|
  {
    if k == 0 then clock else gaps[k - 1].now
  }

  /** What the chain, the database and the signer answer; an answer that is missing is an error thrown. */
  datatype Answers = Answers(
    receipt: Option<Option<Receipt>>, leaseUsable: bool, live: Option<View>, latest: Option<View>,
    accountIsParty: bool, raw: Option<SignedTx>, sendFails: bool)

  /** What the cycle reports; `Threw` is an attempt given up in the catch block. */
  datatype Report = Idle | NowConfirmed | NowReconcile | NowCancelled | NowBroadcast | Threw

  /** Let the others run up to the next effect. */
  method Await(store: TaskStore, gap: Gap, ghost clock: nat)
    requires TableOk(store.rows, clock, store.env) && GapOk(clock, gap)
    modifies store
    ensures store.rows == StoreRun(old(store.rows), gap.others, store.env)
    ensures TableOk(store.rows, gap.now, store.env) && Persists(old(store.rows), store.rows)
  {
    hide TableOk, Persists, Apply;
    StoreRunKeeps(store.rows, clock, gap.others, store.env);
    store.rows := StoreRun(store.rows, gap.others, store.env);
    LaterKeeps(store.rows, EndTime(clock, gap.others), gap.now, store.env);
  }

  /** The first comparisons of the cycle: a receipt settles signed work, and an action that no longer matches is
      set aside. The work goes on exactly when no report is made. */
  method Examine(store: TaskStore, work: Task, a: Answers, receiptGap: Gap, obsoleteGap: Gap, ghost clock: nat)
    returns (report: Option<Report>)
    requires TableOk(store.rows, clock, store.env) && GapOk(clock, receiptGap) && GapOk(receiptGap.now, obsoleteGap)
    requires work.lockToken.Some?
    modifies store
    ensures TableOk(store.rows, obsoleteGap.now, store.env) && Persists(old(store.rows), store.rows)
    ensures report != Some(NowBroadcast)
    ensures report.None? ==>
      && a.live.Some? && DueIn(work, a.live.value) && a.latest.Some? && Matches(work, a.latest.value)
  {
    hide TableOk, Persists, Apply, Complete, Cancel, Retry, Plans;
    ghost var rows0 := store.rows;
    Await(store, receiptGap, clock);
    ghost var rows1 := store.rows;
    var err, row := None, None;
    report := Some(Threw);
    var token := work.lockToken.value;
    if a.leaseUsable && work.raw.Some? && a.receipt.Some? {
      err, row := store.Complete(receiptGap.now, work.id, token, a.receipt.value);
      PersistsTrans(rows0, rows1, store.rows);
    }
    ghost var rows2 := store.rows;
    Await(store, obsoleteGap, receiptGap.now);
    ghost var rows3 := store.rows;
    PersistsTrans(rows0, rows2, rows3);
    if !a.leaseUsable || (work.raw.Some? && a.receipt.None?) || err.Some? { return; }
    if row.Some? { return Some(NowConfirmed); }
    if a.live.None? { return; }
    var matches := ActionMatches(work.kind, work.dueAt, work.caseId, a.live.value.snapshot, a.live.value.chainTime);
    if !matches {
      if work.raw.Some? {
        err, row := store.Retry(obsoleteGap.now, work.id, token);
      } else {
        err, row := store.Cancel(obsoleteGap.now, work.id, token);
      }
      PersistsTrans(rows0, rows3, store.rows);
      return Some(if err.Some? then Threw else if work.raw.Some? then NowReconcile else NowCancelled);
    }
    if a.live.value.chainTime < work.dueAt || a.latest.None? { return; }
    matches := ActionMatches(work.kind, work.dueAt, work.caseId, a.latest.value.snapshot, a.latest.value.chainTime);
    if matches { report := None; }
  }

  /** Sign the work unless it is signed, and store the bytes before anything is sent. */
  method EnsureSigned(store: TaskStore, work: Task, a: Answers, gap: Gap, ghost clock: nat)
    returns (signed: Option<Task>)
    requires TableOk(store.rows, clock, store.env) && GapOk(clock, gap)
    requires Backed(store.rows, work) && work.lockToken.Some?
    modifies store
    ensures TableOk(store.rows, gap.now, store.env) && Persists(old(store.rows), store.rows)
    ensures signed.Some? ==>
      && Backed(store.rows, signed.value) && signed.value.raw.Some? && KeyOf(signed.value) == KeyOf(work)
      && signed.value.id == work.id && (work.raw.Some? ==> signed.value == work)
      && (work.raw.None? ==> signed.value.raw == a.raw)
  {
    hide TableOk, Persists, Apply, Prepare, Backed;
    ghost var rows0 := store.rows;
    Await(store, gap, clock);
    ghost var rows1 := store.rows;
    BackedStays(rows0, rows1, work);
    if work.raw.Some? { return Some(work); }
    if a.accountIsParty || a.raw.None? { return None; }
    var err, row := store.Prepare(gap.now, work.id, work.lockToken.value, a.raw.value);
    PersistsTrans(rows0, rows1, store.rows);
    if err.Some? || row.None? { return None; }
    PreparedBacked(rows1, gap.now, work.id, work.lockToken.value, a.raw.value, store.env);
    SignedColumns(rows1, gap.now, store.env);
    SignsOwnTask(rows1, gap.now, work, work.lockToken.value, a.raw.value, store.env);
    SameId(rows1, gap.now, work.id, work.lockToken.value, a.raw.value, store.env);
    return row;
  }

  lemma SignedColumns(rows: seq<Task>, now: nat, env: Env)
    requires TableOk(rows, now, env)
    ensures UniqueColumns(rows)
  {
  }

  lemma SameId(rows: seq<Task>, now: nat, id: nat, token: nat, raw: SignedTx, env: Env)
    requires var a := Prepare(rows, now, id, token, raw, env); a.Ok? && a.row.Some?
    ensures Prepare(rows, now, id, token, raw, env).row.value.id == id
  {
  }

  /** The recheck, the sending, and the note of it. */
  method Deliver(store: TaskStore, work: Task, seen: View, fails: bool, recheck: Gap, note: Gap, ghost clock: nat)
    returns (report: Report, sent: Option<Sending>)
    requires TableOk(store.rows, clock, store.env) && GapOk(clock, recheck) && GapOk(recheck.now, note)
    requires Backed(store.rows, work) && work.raw.Some? && work.lockToken.Some? && DueIn(work, seen)
    modifies store
    ensures TableOk(store.rows, note.now, store.env) && Persists(old(store.rows), store.rows)
    ensures sent.Some? ==> sent.value == Sending(work.id, work.raw.value, seen) && SendingOk(store.rows, sent.value)
    ensures report.NowBroadcast? ==> sent.Some? && !fails
    ensures report.NowBroadcast? || report.Threw?
  {
    hide TableOk, Persists, Apply, MarkBroadcast, SendingOk, Backed, DueIn;
    ghost var rows0 := store.rows;
    Await(store, recheck, clock);
    ghost var rows1 := store.rows;
    BackedStays(rows0, rows1, work);
    report, sent := Threw, None;
    if StillOwned(store.rows, work, recheck.now) {
      sent := Some(Sending(work.id, work.raw.value, seen));
      SendingBacked(rows1, work, seen);
    }
    Await(store, note, recheck.now);
    ghost var rows2 := store.rows;
    PersistsTrans(rows0, rows1, rows2);
    if sent.Some? {
      SendingStays(rows1, rows2, sent.value);
      if !fails {
        var err, row := store.MarkBroadcast(note.now, work.id, work.lockToken.value);
        PersistsTrans(rows0, rows2, store.rows);
        SendingStays(rows2, store.rows, sent.value);
        if err.None? { report := NowBroadcast; }
      }
    }
  }

  lemma SendingBacked(rows: seq<Task>, work: Task, seen: View)
    requires Backed(rows, work) && work.raw.Some? && DueIn(work, seen)
    ensures SendingOk(rows, Sending(work.id, work.raw.value, seen))
  {
    hide Plans;
    var i :| 0 <= i < |rows| && SameRow(work, rows[i]);
  }

  /** The claim, then examine, sign and deliver. */
  method Attempt(store: TaskStore, work: Task, a: Answers, gaps: seq<Gap>, ghost clock: nat)
    returns (report: Report, sent: Option<Sending>)
    requires |gaps| == 5 && Forward(clock, gaps)
    requires TableOk(store.rows, clock, store.env) && Backed(store.rows, work) && work.lockToken.Some?
    modifies store
    ensures TableOk(store.rows, gaps[4].now, store.env) && Persists(old(store.rows), store.rows)
    ensures sent.Some? ==>
      && SendingOk(store.rows, sent.value) && a.live == Some(sent.value.seen)
      && sent.value.id == work.id && (work.raw.Some? ==> work.raw == Some(sent.value.bytes))
    ensures report.NowBroadcast? ==> sent.Some?
  {
    hide TableOk, Persists, Apply, SendingOk, Backed, GapOk, DueIn, Forward;
    ghost var rows0 := store.rows;
    sent := None;
    forall k: nat | 1 <= k < 5 ensures GapOk(gaps[k - 1].now, gaps[k]) { ForwardAt(clock, gaps, k); }
    ForwardAt(clock, gaps, 0);
    ForwardAt(clock, gaps, 1);
    var done := Examine(store, work, a, gaps[0], gaps[1], clock);
    ghost var rows1 := store.rows;
    BackedStays(rows0, rows1, work);
    if done.Some? {
      report := done.value;
      Passed(rows1, gaps, 1, store.env);
      return;
    }
    var signed := EnsureSigned(store, work, a, gaps[2], gaps[1].now);
    ghost var rows2 := store.rows;
    PersistsTrans(rows0, rows1, rows2);
    if signed.None? || signed.value.lockToken.None? {
      report := Threw;
      Passed(rows2, gaps, 2, store.env);
      return;
    }
    SameDue(work, signed.value, a.live.value);
    ForwardAt(clock, gaps, 2);
    ForwardAt(clock, gaps, 3);
    ForwardAt(clock, gaps, 4);
    report, sent := Deliver(store, signed.value, a.live.value, a.sendFails, gaps[3], gaps[4], gaps[2].now);
    PersistsTrans(rows0, rows2, store.rows);
  }

  /** Time passes over the gaps not used. */
  lemma Passed(rows: seq<Task>, gaps: seq<Gap>, k: nat, env: Env)
    requires k < |gaps| == 5 && (forall j :: 1 <= j < 5 ==> GapOk(gaps[j - 1].now, gaps[j]))
    requires TableOk(rows, gaps[k].now, env)
    ensures TableOk(rows, gaps[4].now, env)
    decreases 5 - k
  {
    hide TableOk;
    if k < 4 {
      StartBeforeEnd(gaps[k].now, gaps[k + 1].others);
      LaterKeeps(rows, gaps[k].now, gaps[k + 1].now, env);
      Passed(rows, gaps, k + 1, env);
    }
  }

  lemma {:induction false} StartBeforeEnd(clock: nat, steps: seq<Timed>)
    requires InOrder(clock, steps)
    ensures clock <= EndTime(clock, steps)
    decreases |steps|
  {
    if steps != [] { StartBeforeEnd(steps[0].now, steps[1..]); }
  }

  /** One cycle, whatever the other processes do in its gaps: the table stays in order and keeps its signed bytes,
      and what is sent are the bytes the table holds for the claimed task, due in the confirmed view. */
  method RunExecutorCycle(store: TaskStore, chainTime: nat, token: nat, a: Answers, gaps: seq<Gap>, ghost clock: nat)
    returns (report: Report, sent: Option<Sending>)
    requires |gaps| == 7 && Forward(clock, gaps) && TableOk(store.rows, clock, store.env)
    modifies store
    ensures TableOk(store.rows, gaps[6].now, store.env) && Persists(old(store.rows), store.rows)
    ensures sent.Some? ==> SendingOk(store.rows, sent.value) && a.live == Some(sent.value.seen)
    ensures report.NowBroadcast? ==> sent.Some?
  {
    hide TableOk, Persists, Apply, SendingOk, Backed, GapOk, ClaimNext, Forward;
    ghost var rows0 := store.rows;
    ForwardInner(clock, gaps);
    ForwardAt(clock, gaps, 0);
    ForwardAt(clock, gaps, 6);
    forall k: nat | 1 <= k < 7 ensures GapOk(gaps[k - 1].now, gaps[k]) { ForwardAt(clock, gaps, k); }
    Await(store, gaps[0], clock);
    ghost var rows1 := store.rows;
    var err, row := store.Claim(gaps[0].now, chainTime, token);
    ghost var rows2 := store.rows;
    PersistsTrans(rows0, rows1, rows2);
    sent := None;
    if err.Some? || row.None? {
      report := Idle;
      Later(rows2, gaps, store.env);
      return;
    }
    var work := row.value;
    ClaimedBacked(rows1, gaps[0].now, chainTime, token, store.env);
    report, sent := Attempt(store, work, a, gaps[1..6], gaps[0].now);
    ghost var rows3 := store.rows;
    PersistsTrans(rows0, rows2, rows3);
    Await(store, gaps[6], gaps[5].now);
    ghost var rows4 := store.rows;
    PersistsTrans(rows0, rows3, rows4);
    if sent.Some? { SendingStays(rows3, rows4, sent.value); }
    if report.Threw? {
      err, row := store.Retry(gaps[6].now, work.id, token);
      PersistsTrans(rows0, rows4, store.rows);
      if sent.Some? { SendingStays(rows4, store.rows, sent.value); }
    }
  }

  lemma ClaimedBacked(rows: seq<Task>, now: nat, chainTime: nat, token: nat, env: Env)
    requires var a := ClaimNext(rows, now, chainTime, token); a.Ok? && a.row.Some?
    ensures var a := ClaimNext(rows, now, chainTime, token);
      Backed(a.rows, a.row.value) && a.row.value.lockToken == Some(token)
  {
    hide First, AnyRunning, AnyReconcile, Exhausted, Backed;
    AnsweredBacked(rows, now, CallClaim(chainTime, token), env);
  }

  lemma PreparedBacked(rows: seq<Task>, now: nat, id: nat, token: nat, raw: SignedTx, env: Env)
    requires var a := Prepare(rows, now, id, token, raw, env); a.Ok? && a.row.Some?
    ensures var a := Prepare(rows, now, id, token, raw, env); Backed(a.rows, a.row.value)
  {
    hide Prepare, Backed;
    AnsweredBacked(rows, now, CallPrepare(id, token, raw), env);
  }

  lemma ForwardAt(clock: nat, gaps: seq<Gap>, k: nat)
    requires Forward(clock, gaps) && k < |gaps|
    ensures GapOk(if k == 0 then clock else gaps[k - 1].now, gaps[k])
  {
    hide GapOk;
  }

  /** The gaps of one attempt, after the claim and before the catch block. */
  lemma ForwardInner(clock: nat, gaps: seq<Gap>)
    requires Forward(clock, gaps) && |gaps| == 7
    ensures Forward(gaps[0].now, gaps[1..6])
  {
    hide GapOk;
    forall k: nat | k < 5 ensures GapOk(ClockBefore(gaps[0].now, gaps[1..6], k), gaps[1..6][k]) {
      ForwardAt(clock, gaps, k + 1);
    }
  }

  lemma SameDue(t: Task, u: Task, v: View)
    requires KeyOf(t) == KeyOf(u) && DueIn(t, v)
    ensures DueIn(u, v)
  {
    hide Plans;
  }

  lemma Later(rows: seq<Task>, gaps: seq<Gap>, env: Env)
    requires |gaps| == 7 && TableOk(rows, gaps[0].now, env)
    requires forall k :: 1 <= k < 7 ==> GapOk(gaps[k - 1].now, gaps[k])
    ensures TableOk(rows, gaps[6].now, env)
  {
    hide TableOk;
    StartBeforeEnd(gaps[0].now, gaps[1].others);
    StartBeforeEnd(gaps[5].now, gaps[6].others);
    LaterKeeps(rows, gaps[0].now, gaps[1].now, env);
    Passed(rows, gaps[1..6], 0, env);
    LaterKeeps(rows, gaps[5].now, gaps[6].now, env);
  }
}
