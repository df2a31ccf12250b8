/** Workers executing tasks: claim, recheck, sign, persist, send, in steps that other workers, the indexer and
    crashes may interleave (apps/worker/src/jobs/executor.ts:7-51). */
module ExecutorProtocol {
  import opened Options
  import opened EscrowTypes
  import opened EscrowSpec
  import opened EscrowInvariant
  import opened WorkerActions
  import opened PlannerSoundness
  import opened WorkerTasks
  import opened TaskSafety

  /** A snapshot of the escrow as the chain showed it, and the chain time it was taken at. */
  datatype View = View(snapshot: State, chainTime: nat)

  /** Where a worker is in its cycle; `work` is its own copy of the claimed row, `seen` the confirmed snapshot in
      which it found the action due. */
  datatype Stage =
    | Resting
    | Holding(work: Task)
    | Unconfirmed(work: Task)
    | Matching(work: Task, seen: View)
    | Cleared(work: Task, seen: View)
    | Delivered(work: Task, seen: View)

  /** Bytes handed to the network, the task they were sent for, and the snapshot that called for them. */
  datatype Sending = Sending(id: nat, bytes: SignedTx, seen: View)

  datatype System = System(rows: seq<Task>, workers: seq<Stage>, sent: seq<Sending>, clock: nat)

  /** What one process does next. A worker acts on what the store answers it. */
  datatype Move =
    | Begin(w: nat, chainTime: nat, token: nat)
    | RecordReceipt(w: nat, receipt: Option<Receipt>)
    | Compare(w: nat, live: View, latest: View)
    | Sign(w: nat, raw: SignedTx)
    | Recheck(w: nat)
    | Send(w: nat)
    | NoteSent(w: nat)
    | Fail(w: nat)
    | Crash(w: nat)
    | Elsewhere(call: StoreCall)

  /** Recording a failed attempt; losing the row to somebody else is fine. */
  function GiveUp(s: System, w: nat, t: Task): System
    requires w < |s.workers|
  {
    if t.lockToken.None? then s.(workers := s.workers[w := Resting])
    else s.(rows := RowsAfter(Retry(s.rows, s.clock, t.id, t.lockToken.value), s.rows),
            workers := s.workers[w := Resting])
  }

  /** The recheck just before sending: the row is still this worker's, signed, and its lock unexpired. */
  predicate StillOwned(rows: seq<Task>, t: Task, now: nat) {
    var i := IndexOf(rows, t.id, |rows|);
    && i.Some? && rows[i.value].lockToken == t.lockToken && LockedPast(rows[i.value], now)
    && (rows[i.value].state.Prepared? || rows[i.value].state.Broadcast?)
  }

  /** `actionMatches`. */
  predicate Matches(t: Task, v: View) {
    Plans(v.snapshot, v.chainTime, PlannedAction(t.kind, t.dueAt, t.caseId))
  }

  /** One move at the present clock. A move its worker is not ready for does nothing. */
  function Next(s: System, m: Move, env: Env): System {
    if m.Elsewhere? then s.(rows := RowsAfter(Apply(s.rows, s.clock, m.call, env), s.rows))
    else if m.w >= |s.workers| then s
    else if m.Begin? then
      if !s.workers[m.w].Resting? then s
      else
        var a := ClaimNext(s.rows, s.clock, m.chainTime, m.token);
        if a.Ok? && a.row.Some? then s.(rows := a.rows, workers := s.workers[m.w := Taken(a.row.value)])
        else s.(rows := RowsAfter(a, s.rows))
    else if s.workers[m.w].Resting? then s
    else if m.Crash? then s.(workers := s.workers[m.w := Resting])
    else if m.Fail? then GiveUp(s, m.w, s.workers[m.w].work)
    else Working(s, m, s.workers[m.w].work, env)
  }

  /** Signed work is first looked up on the chain: its receipt wins over any comparison. */
  function Taken(t: Task): Stage {
    if t.raw.Some? then Holding(t) else Unconfirmed(t)
  }

  /** A step of a worker on the task it holds. */
  function Working(s: System, m: Move, t: Task, env: Env): System
    requires !m.Elsewhere? && !m.Begin? && m.w < |s.workers|
  {
    if t.lockToken.None? then s else
    var token := t.lockToken.value;
    match m
    case RecordReceipt(w, receipt) =>
      if !s.workers[w].Holding? || t.raw.None? then s
      else
        var a := Complete(s.rows, s.clock, t.id, token, receipt);
        if a.Refuse? then GiveUp(s, w, t)
        else s.(rows := a.rows, workers := s.workers[w := if a.row.Some? then Resting else Unconfirmed(t)])
    case Compare(w, live, latest) =>
      if !s.workers[w].Unconfirmed? then s
      else if !Matches(t, live) then
        if t.raw.Some? then GiveUp(s, w, t)
        else
          var a := Cancel(s.rows, s.clock, t.id, token);
          if a.Refuse? then GiveUp(s, w, t) else s.(rows := a.rows, workers := s.workers[w := Resting])
      else if live.chainTime < t.dueAt || !Matches(t, latest) then GiveUp(s, w, t)
      else s.(workers := s.workers[w := Matching(t, live)])
    case Sign(w, raw) =>
      if !s.workers[w].Matching? || t.raw.Some? then s
      else
        var a := Prepare(s.rows, s.clock, t.id, token, raw, env);
        if a.Refuse? then GiveUp(s, w, t)
        else s.(rows := a.rows,
                workers := s.workers[w := if a.row.Some? then Matching(a.row.value, s.workers[w].seen) else Resting])
    case Recheck(w) =>
      if !s.workers[w].Matching? || t.raw.None? then s
      else if StillOwned(s.rows, t, s.clock) then s.(workers := s.workers[w := Cleared(t, s.workers[w].seen)])
      else GiveUp(s, w, t)
    case Send(w) =>
      if !s.workers[w].Cleared? || t.raw.None? then s
      else s.(sent := s.sent + [Sending(t.id, t.raw.value, s.workers[w].seen)],
              workers := s.workers[w := Delivered(t, s.workers[w].seen)])
    case NoteSent(w) =>
      if !s.workers[w].Delivered? then s
      else
        var a := MarkBroadcast(s.rows, s.clock, t.id, token);
        if a.Refuse? then GiveUp(s, w, t) else s.(rows := a.rows, workers := s.workers[w := Resting])
    case _ => s
  }

  /** A move at a moment of the shared clock. */
  datatype Tick = Tick(now: nat, move: Move)

  function Play(s: System, ticks: seq<Tick>, env: Env): System
    decreases |ticks|
  {
    if ticks == [] then s
    else
      var s1 := s.(clock := if ticks[0].now > s.clock then ticks[0].now else s.clock);
      Play(Next(s1, ticks[0].move, env), ticks[1..], env)
  }

  // ---------- what is sent is what is stored ----------

  /** The task's action was planned and due in the snapshot. */
  predicate DueIn(t: Task, v: View) {
    Matches(t, v) && t.dueAt <= v.chainTime
  }

  /** A copy of a row that is still right: same row, and any signed bytes are the stored ones. */
  predicate Backed(rows: seq<Task>, t: Task) {
    exists i :: 0 <= i < |rows| && SameRow(t, rows[i])
  }

  predicate StageOk(rows: seq<Task>, stage: Stage) {
    && (!stage.Resting? ==> Backed(rows, stage.work))
    && (stage.Cleared? || stage.Delivered? ==> stage.work.raw.Some?)
    && (stage.Matching? || stage.Cleared? || stage.Delivered? ==> DueIn(stage.work, stage.seen))
  }

  /** The bytes are stored as those of the task, and a snapshot called for them. */
  predicate SendingOk(rows: seq<Task>, sending: Sending) {
    exists i :: 0 <= i < |rows| && rows[i].id == sending.id && rows[i].raw == Some(sending.bytes)
                && DueIn(rows[i], sending.seen)
  }

  predicate WorkersOk(rows: seq<Task>, workers: seq<Stage>) {
    forall w :: 0 <= w < |workers| ==> StageOk(rows, workers[w])
  }

  predicate SentOk(rows: seq<Task>, sent: seq<Sending>) {
    forall k :: 0 <= k < |sent| ==> SendingOk(rows, sent[k])
  }

  predicate SystemOk(s: System, env: Env) {
    TableOk(s.rows, s.clock, env) && WorkersOk(s.rows, s.workers) && SentOk(s.rows, s.sent)
  }

  lemma BackedStays(rows: seq<Task>, rows': seq<Task>, t: Task)
    requires Backed(rows, t) && Persists(rows, rows')
    ensures Backed(rows', t)
  {
    var i :| 0 <= i < |rows| && SameRow(t, rows[i]);
    assert SameRow(rows[i], rows'[i]);
  }

  lemma SendingStays(rows: seq<Task>, rows': seq<Task>, sending: Sending)
    requires SendingOk(rows, sending) && Persists(rows, rows')
    ensures SendingOk(rows', sending)
  {
    hide Plans;
    var i :| 0 <= i < |rows| && rows[i].id == sending.id && rows[i].raw == Some(sending.bytes)
             && DueIn(rows[i], sending.seen);
    assert SameRow(rows[i], rows'[i]);
  }

  lemma AllStays(s: System, rows': seq<Task>)
    requires WorkersOk(s.rows, s.workers) && SentOk(s.rows, s.sent) && Persists(s.rows, rows')
    ensures WorkersOk(rows', s.workers) && SentOk(rows', s.sent)
  {
    hide Persists, Backed, SendingOk, DueIn;
    forall w | 0 <= w < |s.workers| ensures StageOk(rows', s.workers[w]) {
      if !s.workers[w].Resting? { BackedStays(s.rows, rows', s.workers[w].work); }
    }
    forall k | 0 <= k < |s.sent| ensures SendingOk(rows', s.sent[k]) {
      SendingStays(s.rows, rows', s.sent[k]);
    }
  }

  lemma StepOk(s: System, call: StoreCall, env: Env)
    requires SystemOk(s, env)
    ensures var rows' := RowsAfter(Apply(s.rows, s.clock, call, env), s.rows);
      TableOk(rows', s.clock, env) && Persists(s.rows, rows') && SystemOk(s.(rows := rows'), env)
  {
    hide TableOk, Apply, Persists, WorkersOk, SentOk;
    StepKeeps(s.rows, s.clock, call, env);
    AllStays(s, RowsAfter(Apply(s.rows, s.clock, call, env), s.rows));
  }

  lemma StageSet(s: System, w: nat, stage: Stage, env: Env)
    requires SystemOk(s, env) && w < |s.workers| && StageOk(s.rows, stage)
    ensures SystemOk(s.(workers := s.workers[w := stage]), env)
  {
    hide TableOk, StageOk, SentOk;
  }

  lemma GiveUpOk(s: System, w: nat, t: Task, env: Env)
    requires SystemOk(s, env) && w < |s.workers|
    ensures SystemOk(GiveUp(s, w, t), env) && Persists(s.rows, GiveUp(s, w, t).rows) && GiveUp(s, w, t).sent == s.sent
  {
    hide SystemOk, Persists, Retry;
    PersistsRefl(s.rows);
    if t.lockToken.None? {
      StageSet(s, w, Resting, env);
    } else {
      var call := CallRetry(t.id, t.lockToken.value);
      StepOk(s, call, env);
      StageSet(s.(rows := RowsAfter(Apply(s.rows, s.clock, call, env), s.rows)), w, Resting, env);
    }
  }

  /** A row the store answers with is a right copy; signing answers with the signed row. */
  lemma AnsweredBacked(rows: seq<Task>, now: nat, call: StoreCall, env: Env)
    requires call.CallClaim? || call.CallPrepare?
    requires var a := Apply(rows, now, call, env); a.Ok? && a.row.Some?
    ensures var a := Apply(rows, now, call, env); Backed(a.rows, a.row.value)
  {
    hide First, AnyRunning, AnyReconcile, Exhausted, Faithful;
    var a := Apply(rows, now, call, env);
    if call.CallClaim? {
      var rs := EachExhausted(rows, now);
      var signed := First(rs, SignedQuery, |rs|);
      var i := if signed.Some? then signed.value else First(rs, DueQuery(call.chainTime, now), |rs|).value;
      assert a.rows[i] == a.row.value;
    } else {
      var i := Owned(rows, call.id, call.token, now, {Running}).value;
      assert a.rows[i] == a.row.value;
    }
  }

  /** The row signing answers with is the worker's own task, signed. */
  lemma SignsOwnTask(rows: seq<Task>, now: nat, t: Task, token: nat, raw: SignedTx, env: Env)
    requires Backed(rows, t) && UniqueColumns(rows)
    requires var a := Prepare(rows, now, t.id, token, raw, env); a.Ok? && a.row.Some?
    ensures KeyOf(Prepare(rows, now, t.id, token, raw, env).row.value) == KeyOf(t)
    ensures Prepare(rows, now, t.id, token, raw, env).row.value.raw == Some(raw)
  {
    hide Faithful;
    var i :| 0 <= i < |rows| && SameRow(t, rows[i]);
    var k := Owned(rows, t.id, token, now, {Running}).value;
    assert i == k;
  }

  lemma WorkerStage(s: System, w: nat, env: Env)
    requires SystemOk(s, env) && w < |s.workers|
    ensures StageOk(s.rows, s.workers[w])
  {
  }

  /** A worker's own store call, after which it is at a stage that suits its task. */
  lemma AfterCall(s: System, w: nat, call: StoreCall, stage: Stage, env: Env)
    requires SystemOk(s, env) && w < |s.workers| && StageOk(s.rows, stage)
    ensures var rows' := RowsAfter(Apply(s.rows, s.clock, call, env), s.rows);
      SystemOk(s.(rows := rows', workers := s.workers[w := stage]), env) && Persists(s.rows, rows')
  {
    hide SystemOk, Apply, StageOk, Persists;
    StageSet(s, w, stage, env);
    StepOk(s.(workers := s.workers[w := stage]), call, env);
  }

  lemma SignedStage(s: System, w: nat, token: nat, raw: SignedTx, env: Env)
    requires SystemOk(s, env) && w < |s.workers| && s.workers[w].Matching?
    requires var a := Prepare(s.rows, s.clock, s.workers[w].work.id, token, raw, env); a.Ok? && a.row.Some?
    ensures var a := Prepare(s.rows, s.clock, s.workers[w].work.id, token, raw, env);
      SystemOk(s.(rows := a.rows, workers := s.workers[w := Matching(a.row.value, s.workers[w].seen)]), env)
  {
    hide TableOk, WorkersOk, SentOk, Prepare, Backed, Plans;
    var t := s.workers[w].work;
    var call := CallPrepare(t.id, token, raw);
    var a := Apply(s.rows, s.clock, call, env);
    WorkerStage(s, w, env);
    StepOk(s, call, env);
    AnsweredBacked(s.rows, s.clock, call, env);
    Columns(s, env);
    SignsOwnTask(s.rows, s.clock, t, token, raw, env);
    StageSet(s.(rows := a.rows), w, Matching(a.row.value, s.workers[w].seen), env);
  }

  lemma Columns(s: System, env: Env)
    requires SystemOk(s, env)
    ensures UniqueColumns(s.rows)
  {
  }

  lemma SendOk(s: System, w: nat, env: Env)
    requires SystemOk(s, env) && w < |s.workers| && s.workers[w].Cleared?
    ensures var t := s.workers[w].work;
      && t.raw.Some?
      && SystemOk(s.(sent := s.sent + [Sending(t.id, t.raw.value, s.workers[w].seen)],
                     workers := s.workers[w := Delivered(t, s.workers[w].seen)]), env)
  {
    hide TableOk, WorkersOk, Plans;
    WorkerStage(s, w, env);
    var t := s.workers[w].work;
    var i :| 0 <= i < |s.rows| && SameRow(t, s.rows[i]);
    assert SendingOk(s.rows, Sending(t.id, t.raw.value, s.workers[w].seen));
    hide SendingOk, Backed, DueIn;
    StageSet(s, w, Delivered(t, s.workers[w].seen), env);
  }

  lemma CompareOk(s: System, w: nat, live: View, latest: View, env: Env)
    requires SystemOk(s, env) && w < |s.workers| && !s.workers[w].Resting?
    ensures var s' := Working(s, Compare(w, live, latest), s.workers[w].work, env);
      SystemOk(s', env) && Persists(s.rows, s'.rows) && s.sent <= s'.sent
  {
    hide SystemOk, Persists, GiveUp, Cancel, Matches, Backed;
    var t := s.workers[w].work;
    PersistsRefl(s.rows);
    WorkerStage(s, w, env);
    GiveUpOk(s, w, t, env);
    if t.lockToken.Some? { AfterCall(s, w, CallCancel(t.id, t.lockToken.value), Resting, env); }
    if DueIn(t, live) { StageSet(s, w, Matching(t, live), env); }
  }

  lemma WorkingOk(s: System, m: Move, t: Task, env: Env)
    requires SystemOk(s, env) && !m.Elsewhere? && !m.Begin? && m.w < |s.workers|
    requires !s.workers[m.w].Resting? && t == s.workers[m.w].work
    ensures var s' := Working(s, m, t, env);
      SystemOk(s', env) && Persists(s.rows, s'.rows) && s.sent <= s'.sent
  {
    hide SystemOk, Persists, GiveUp, Complete, Cancel, Prepare, MarkBroadcast, StillOwned, Backed, Matches;
    PersistsRefl(s.rows);
    GiveUpOk(s, m.w, t, env);
    WorkerStage(s, m.w, env);
    if t.lockToken.Some? {
      var token := t.lockToken.value;
      match m {
        case RecordReceipt(w, receipt) =>
          AfterCall(s, w, CallComplete(t.id, token, receipt), Resting, env);
          AfterCall(s, w, CallComplete(t.id, token, receipt), Unconfirmed(t), env);
        case Compare(w, live, latest) => CompareOk(s, w, live, latest, env);
        case Sign(w, raw) =>
          AfterCall(s, w, CallPrepare(t.id, token, raw), Resting, env);
          var a := Prepare(s.rows, s.clock, t.id, token, raw, env);
          if s.workers[w].Matching? && a.Ok? && a.row.Some? { SignedStage(s, w, token, raw, env); }
        case Recheck(w) =>
          if s.workers[w].Matching? && t.raw.Some? { StageSet(s, w, Cleared(t, s.workers[w].seen), env); }
        case Send(w) => if s.workers[w].Cleared? { SendOk(s, w, env); }
        case NoteSent(w) => AfterCall(s, w, CallBroadcast(t.id, token), Resting, env);
        case _ =>
      }
    }
  }

  /** Every move of every process keeps the system in order. */
  lemma NextOk(s: System, m: Move, env: Env)
    requires SystemOk(s, env)
    ensures var s' := Next(s, m, env); SystemOk(s', env) && Persists(s.rows, s'.rows) && s.sent <= s'.sent
  {
    hide SystemOk, Persists, ClaimNext, Working, GiveUp, Backed;
    PersistsRefl(s.rows);
    if m.Elsewhere? {
      StepOk(s, m.call, env);
    } else if m.w < |s.workers| {
      if m.Begin? {
        var call := CallClaim(m.chainTime, m.token);
        var a := Apply(s.rows, s.clock, call, env);
        StepOk(s, call, env);
        if a.Ok? && a.row.Some? {
          AnsweredBacked(s.rows, s.clock, call, env);
          StageSet(s.(rows := a.rows), m.w, Taken(a.row.value), env);
        }
      } else if !s.workers[m.w].Resting? {
        StageSet(s, m.w, Resting, env);
        GiveUpOk(s, m.w, s.workers[m.w].work, env);
        if !m.Crash? && !m.Fail? { WorkingOk(s, m, s.workers[m.w].work, env); }
      }
    }
  }

  lemma ClockOk(s: System, now: nat, env: Env)
    requires SystemOk(s, env) && s.clock <= now
    ensures SystemOk(s.(clock := now), env)
  {
    hide TableOk, WorkersOk, SentOk;
    LaterKeeps(s.rows, s.clock, now, env);
  }

  /** Under any interleaving of any number of workers with everything else, every sending is of bytes stored for
      its task; stored bytes and past sendings never change. */
  lemma {:induction false} PlayOk(s: System, ticks: seq<Tick>, env: Env)
    requires SystemOk(s, env)
    ensures SystemOk(Play(s, ticks, env), env)
    ensures Persists(s.rows, Play(s, ticks, env).rows) && s.sent <= Play(s, ticks, env).sent
    decreases |ticks|
  {
    hide SystemOk, Persists, Next;
    PersistsRefl(s.rows);
    if ticks != [] {
      var s1 := s.(clock := if ticks[0].now > s.clock then ticks[0].now else s.clock);
      ClockOk(s, s1.clock, env);
      NextOk(s1, ticks[0].move, env);
      PlayOk(Next(s1, ticks[0].move, env), ticks[1..], env);
      PersistsTrans(s.rows, Next(s1, ticks[0].move, env).rows, Play(s, ticks, env).rows);
    }
  }

  /** At most one byte string is ever sent for a task. */
  lemma OneTransactionPerTask(s: System, env: Env, j: nat, k: nat)
    requires SystemOk(s, env) && j < |s.sent| && k < |s.sent|
    ensures s.sent[j].id == s.sent[k].id ==> s.sent[j].bytes == s.sent[k].bytes
  {
    hide RowOk, DueIn;
    assert SendingOk(s.rows, s.sent[j]) && SendingOk(s.rows, s.sent[k]);
  }

  /** What is sent makes the scheduled call, with no value, on the escrow of the task's lease, and the action was
      planned and due in a confirmed snapshot. */
  lemma SentIsScheduled(s: System, env: Env, k: nat)
    requires SystemOk(s, env) && k < |s.sent|
    ensures exists i :: 0 <= i < |s.rows| && s.rows[i].id == s.sent[k].id && Faithful(s.sent[k].bytes, s.rows[i], env)
                        && DueIn(s.rows[i], s.sent[k].seen)
  {
    hide DueIn, Faithful;
    assert SendingOk(s.rows, s.sent[k]);
    var i :| 0 <= i < |s.rows| && s.rows[i].id == s.sent[k].id && s.rows[i].raw == Some(s.sent[k].bytes)
             && DueIn(s.rows[i], s.sent[k].seen);
    RowOf(s.rows, i, s.clock, env);
  }

  /** So if the escrow is still in that snapshot's state when the bytes execute, the contract accepts them if and
      only if the task is not of a kind it stops at the hard end, or the hard end has not come. */
  lemma SentSucceeds(s: System, env: Env, k: nat, sender: Address, now: nat)
    requires SystemOk(s, env) && k < |s.sent|
    requires Inv(s.sent[k].seen.snapshot) && now >= s.sent[k].seen.chainTime
    ensures var state := s.sent[k].seen.snapshot;
      exists i :: 0 <= i < |s.rows| && s.rows[i].id == s.sent[k].id &&
        (Exec(state, sender, now, s.sent[k].bytes.call).Done? <==>
          !StopsAtHardEnd(s.rows[i].kind) || now < state.terms.hardEndAt)
  {
    hide SystemOk, Inv, Exec, Plans;
    SentIsScheduled(s, env, k);
    var i :| 0 <= i < |s.rows| && s.rows[i].id == s.sent[k].id && Faithful(s.sent[k].bytes, s.rows[i], env)
             && DueIn(s.rows[i], s.sent[k].seen);
    var t := s.rows[i];
    var v := s.sent[k].seen;
    PlannedSucceeds(v.snapshot, v.chainTime, PlannedAction(t.kind, t.dueAt, t.caseId), sender, now);
  }

  /** When a worker is cleared to send, its task is signed and nothing else is live. */
  lemma ClearedAlone(s: System, w: nat, env: Env)
    requires SystemOk(s, env) && w < |s.workers| && s.workers[w].Matching? && s.workers[w].work.lockToken.Some?
    requires Next(s, Recheck(w), env).workers[w].Cleared?
    ensures exists i :: 0 <= i < |s.rows| && SameRow(s.workers[w].work, s.rows[i]) && Live(s.rows[i], s.clock)
                        && forall j :: 0 <= j < |s.rows| && j != i ==> !Live(s.rows[j], s.clock)
  {
    hide RowOk, DueIn, Retry;
    var t := s.workers[w].work;
    assert StageOk(s.rows, s.workers[w]);
    assert StillOwned(s.rows, t, s.clock);
    var i := IndexOf(s.rows, t.id, |s.rows|).value;
    var j :| 0 <= j < |s.rows| && SameRow(t, s.rows[j]);
    assert i == j;
  }

  /** From an empty table with every worker at rest, whatever happens: one transaction per task, and at most one
      task live. */
  lemma SendingsSafe(workers: nat, start: nat, ticks: seq<Tick>, env: Env, j: nat, k: nat)
    requires var s := Play(System([], seq(workers, _ => Resting), [], start), ticks, env);
      j < |s.sent| && k < |s.sent|
    ensures var s := Play(System([], seq(workers, _ => Resting), [], start), ticks, env);
      && (s.sent[j].id == s.sent[k].id ==> s.sent[j].bytes == s.sent[k].bytes)
      && CountLive(s.rows, s.clock) <= 1
  {
    var s0 := System([], seq(workers, _ => Resting), [], start);
    hide Next, CountLive, DueIn, RowOk;
    EmptyOk(start, env);
    PlayOk(s0, ticks, env);
    var s := Play(s0, ticks, env);
    OneTransactionPerTask(s, env, j, k);
    SingleFlightCount(s.rows, s.clock);
  }
}
