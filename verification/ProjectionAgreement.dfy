/** When the event table agrees with the chain, and that it keeps agreeing through forks. */
module ProjectionAgreement {
  import opened Options
  import opened EscrowTypes
  import opened Projection

  ghost predicate NoneShown(events: Events, id: nat, a: Address) {
    forall k :: k in events ==> !Shown(events[k], id, a)
  }

  /** What the table holds for a lease's contract: exactly its logs up to the checkpoint, on the chain the checkpoint's
      hash stands for, from the block the last full replay began at; without a checkpoint, nothing. */
  ghost predicate LeaseOk(db: Db, id: nat, a: Address, base: nat) {
    if a in db.checkpoints then
      var m := db.checkpoints[a];
      |m.hash| == m.number + 1 && Agrees(db.events, id, a, m.hash, base, m.number + 1)
    else NoneShown(db.events, id, a)
  }

  // ---------- one synchronization ----------

  lemma RetractShowsNone(events: Events, id: nat, a: Address)
    ensures NoneShown(Retract(events, id, a), id, a)
    ensures forall l :: Clashes(Retract(events, id, a), l) <==> Clashes(events, l)
  {
  }

  /** Equal prefixes emit the same. */
  lemma SamePrefix(chain: Chain, other: Chain, a: Address, from: nat, end: nat)
    requires end <= |chain| && end <= |other| && chain[..end] == other[..end]
    ensures forall p :: Emitted(chain, a, from, end, p) <==> Emitted(other, a, from, end, p)
  {
    forall n: nat | n < end ensures MarkAt(chain, n) == MarkAt(other, n) && chain[n] == other[n] {
      assert chain[..n + 1] == chain[..end][..n + 1];
      assert other[..n + 1] == other[..end][..n + 1];
      assert chain[n] == chain[..end][n] && other[n] == other[..end][n];
    }
  }

  lemma AgreesOnPrefix(events: Events, id: nat, a: Address, chain: Chain, other: Chain, from: nat, end: nat)
    requires end <= |chain| && end <= |other| && chain[..end] == other[..end]
    requires Agrees(events, id, a, chain, from, end)
    ensures Agrees(events, id, a, other, from, end)
  {
    SamePrefix(chain, other, a, from, end);
    hide Emitted, Shown, RowFor;
  }

  lemma LongerEmits(chain: Chain, a: Address, from: nat, from': nat, end: nat, end': nat, p: Placed)
    requires Emitted(chain, a, from, end, p) && from' <= from && end <= end'
    ensures Emitted(chain, a, from', end', p)
  {
  }

  function Lower(a: nat, b: nat): nat {
    if a < b then a else b
  }

  /** Every row shown is of a log of those blocks, or has the key of something to be recorded. */
  ghost predicate Covered(events: Events, id: nat, a: Address, chain: Chain, from: nat, end: nat, ps: seq<Placed>) {
    forall k :: k in events && Shown(events[k], id, a) ==>
      (exists p :: Emitted(chain, a, from, end, p) && KeyOf(p.log) == k) || HasKey(ps, k)
  }

  predicate HasKey(ps: seq<Placed>, k: EventKey) {
    exists i :: 0 <= i < |ps| && KeyOf(ps[i].log) == k
  }

  /** When recording a further range of blocks leaves agreement, whatever the table was: exactly when no log of the
      range clashes with a row, the blocks before are complete, and nothing else is shown. */
  lemma ExtendExactly(events: Events, id: nat, a: Address, chain: Chain, base: nat, start: nat, end: nat)
    requires WellFormed(chain) && end <= |chain| && (start <= end || base == start)
    ensures var ps := LogsBetween(chain, a, start, end);
      Agrees(RecordEvents(events, Some(id), ps), id, a, chain, Lower(base, start), end) <==>
        && Clean(events, ps) && Complete(events, id, a, chain, base, start)
        && Covered(events, id, a, chain, base, start, ps)
  {
    var ps := LogsBetween(chain, a, start, end);
    hide WellFormed, Complete, Covered, Clean, Faithful;
    if Clean(events, ps) && Complete(events, id, a, chain, base, start)
       && Covered(events, id, a, chain, base, start, ps) {
      CleanCompletes(events, id, a, chain, base, start, end);
      RecordedFaithful(events, id, a, chain, base, start, end);
    }
    if Agrees(RecordEvents(events, Some(id), ps), id, a, chain, Lower(base, start), end) {
      CompleteWasClean(events, id, a, chain, base, start, end);
      CompleteBefore(events, id, a, chain, base, start, end);
      CoveredBefore(events, id, a, chain, base, start, end);
    }
  }

  /** A table in agreement is complete and covered before recording goes on. */
  lemma AgreesCovers(events: Events, id: nat, a: Address, chain: Chain, from: nat, end: nat, ps: seq<Placed>)
    requires Agrees(events, id, a, chain, from, end)
    ensures Complete(events, id, a, chain, from, end) && Covered(events, id, a, chain, from, end, ps)
  {
    hide Emitted, Shown, RowFor, HasKey;
  }

  lemma CompleteWasClean(events: Events, id: nat, a: Address, chain: Chain, base: nat, start: nat, end: nat)
    requires WellFormed(chain) && end <= |chain|
    requires Complete(RecordEvents(events, Some(id), LogsBetween(chain, a, start, end)), id, a, chain,
                      Lower(base, start), end)
    ensures Clean(events, LogsBetween(chain, a, start, end))
  {
    var ps := LogsBetween(chain, a, start, end);
    LogsBetweenDistinct(chain, a, start, end);
    forall i | 0 <= i < |ps| ensures !Clashes(events, ps[i].log) {
      var p := ps[i];
      LogsBetweenExactly(chain, a, start, end, p);
      RecordAt(events, Some(id), ps, KeyOf(p.log));
      LongerEmits(chain, a, start, Lower(base, start), end, end, p);
      assert RecordEvents(events, Some(id), ps)[KeyOf(p.log)] == RowFor(p, id);
    }
  }

  /** A log of the blocks before has no key of the range recorded. */
  lemma EarlierKey(chain: Chain, a: Address, base: nat, start: nat, end: nat, p: Placed)
    requires WellFormed(chain) && end <= |chain| && Emitted(chain, a, base, start, p)
    ensures !HasKey(LogsBetween(chain, a, start, end), KeyOf(p.log))
  {
    var ps := LogsBetween(chain, a, start, end);
    forall i | 0 <= i < |ps| ensures KeyOf(ps[i].log) != KeyOf(p.log) {
      LogsBetweenExactly(chain, a, start, end, ps[i]);
      OneLog(chain, p, ps[i]);
    }
  }

  lemma CompleteBefore(events: Events, id: nat, a: Address, chain: Chain, base: nat, start: nat, end: nat)
    requires WellFormed(chain) && end <= |chain| && (start <= end || base == start)
    requires Complete(RecordEvents(events, Some(id), LogsBetween(chain, a, start, end)), id, a, chain,
                      Lower(base, start), end)
    ensures Complete(events, id, a, chain, base, start)
  {
    var ps := LogsBetween(chain, a, start, end);
    LogsBetweenDistinct(chain, a, start, end);
    forall p | Emitted(chain, a, base, start, p)
      ensures KeyOf(p.log) in events && events[KeyOf(p.log)] == RowFor(p, id)
    {
      LongerEmits(chain, a, base, Lower(base, start), start, end, p);
      EarlierKey(chain, a, base, start, end, p);
      RecordAt(events, Some(id), ps, KeyOf(p.log));
    }
  }

  lemma CoveredBefore(events: Events, id: nat, a: Address, chain: Chain, base: nat, start: nat, end: nat)
    requires WellFormed(chain) && end <= |chain| && (start <= end || base == start)
    requires Faithful(RecordEvents(events, Some(id), LogsBetween(chain, a, start, end)), id, a, chain,
                      Lower(base, start), end)
    ensures Covered(events, id, a, chain, base, start, LogsBetween(chain, a, start, end))
  {
    var ps := LogsBetween(chain, a, start, end);
    LogsBetweenDistinct(chain, a, start, end);
    forall k | k in events && Shown(events[k], id, a) && !HasKey(ps, k)
      ensures exists p :: Emitted(chain, a, base, start, p) && KeyOf(p.log) == k
    {
      RecordAt(events, Some(id), ps, k);
      var p :| Emitted(chain, a, Lower(base, start), end, p) && KeyOf(p.log) == k;
      LogsBetweenExactly(chain, a, start, end, p);
      assert Emitted(chain, a, base, start, p);
    }
  }

  lemma CleanCompletes(events: Events, id: nat, a: Address, chain: Chain, base: nat, start: nat, end: nat)
    requires WellFormed(chain) && end <= |chain| && Complete(events, id, a, chain, base, start)
    requires Clean(events, LogsBetween(chain, a, start, end)) && (start <= end || base == start)
    ensures Complete(RecordEvents(events, Some(id), LogsBetween(chain, a, start, end)), id, a, chain, Lower(base, start),
                     end)
  {
    var ps := LogsBetween(chain, a, start, end);
    var after := RecordEvents(events, Some(id), ps);
    LogsBetweenDistinct(chain, a, start, end);
    forall p | Emitted(chain, a, Lower(base, start), end, p)
      ensures KeyOf(p.log) in after && after[KeyOf(p.log)] == RowFor(p, id)
    {
      RecordAt(events, Some(id), ps, KeyOf(p.log));
      if start <= p.mark.number {
        LogsBetweenExactly(chain, a, start, end, p);
        var i :| 0 <= i < |ps| && ps[i] == p;
        assert !Clashes(events, p.log);
      } else {
        assert Emitted(chain, a, base, start, p);
        EarlierKey(chain, a, base, start, end, p);
      }
    }
  }

  /** Placed logs of one chain with the same key are the same. */
  lemma OneLog(chain: Chain, p: Placed, q: Placed)
    requires UniqueKeys(chain) && p.mark.number < |chain| && q.mark.number < |chain|
    requires p.log in chain[p.mark.number].logs && q.log in chain[q.mark.number].logs
    ensures KeyOf(p.log) == KeyOf(q.log) ==> p.mark.number == q.mark.number
  {
  }

  lemma RecordedFaithful(events: Events, id: nat, a: Address, chain: Chain, base: nat, start: nat, end: nat)
    requires WellFormed(chain) && end <= |chain| && (start <= end || base == start)
    requires Covered(events, id, a, chain, base, start, LogsBetween(chain, a, start, end))
    ensures Faithful(RecordEvents(events, Some(id), LogsBetween(chain, a, start, end)), id, a, chain, Lower(base, start),
                     end)
  {
    var ps := LogsBetween(chain, a, start, end);
    var after := RecordEvents(events, Some(id), ps);
    LogsBetweenDistinct(chain, a, start, end);
    forall k | k in after && Shown(after[k], id, a)
      ensures exists p :: Emitted(chain, a, Lower(base, start), end, p) && KeyOf(p.log) == k
    {
      RecordAt(events, Some(id), ps, k);
      if i: nat :| i < |ps| && KeyOf(ps[i].log) == k {
        LogsBetweenExactly(chain, a, start, end, ps[i]);
        LongerEmits(chain, a, start, Lower(base, start), end, end, ps[i]);
      } else {
        var p :| Emitted(chain, a, base, start, p) && KeyOf(p.log) == k;
        LongerEmits(chain, a, base, Lower(base, start), start, end, p);
      }
    }
  }

  /** Whether a synchronization starts over from the creation block. */
  predicate StartsOver(db: Db, chain: Chain, head: nat, a: Address)
    requires head < |chain|
  {
    a !in db.checkpoints || Stale(db, chain, head, a)
  }

  /** The block the shown events reach back to after a synchronization. */
  function BaseAfter(db: Db, chain: Chain, head: nat, a: Address, created: nat, base: nat): nat
    requires head < |chain|
  {
    if StartsOver(db, chain, head, a) then created else Lower(base, StartBlock(db, chain, head, a, created))
  }

  lemma SameClean(events: Events, other: Events, ps: seq<Placed>)
    requires forall l :: Clashes(events, l) <==> Clashes(other, l)
    ensures Clean(events, ps) <==> Clean(other, ps)
  {
    hide Clashes;
  }

  /** The block up to which a synchronization relies on what the table holds. */
  function BaseBefore(db: Db, chain: Chain, head: nat, a: Address, created: nat, base: nat): nat
    requires head < |chain|
  {
    if StartsOver(db, chain, head, a) then created else base
  }

  /** Taking rows back changes no clash. */
  lemma KeptClean(db: Db, chain: Chain, head: nat, id: nat, a: Address, ps: seq<Placed>)
    requires head < |chain|
    ensures Clean(Kept(db, chain, head, id, a), ps) <==> Clean(db.events, ps)
  {
    hide Clashes, Retract, Stale, Clean;
    RetractShowsNone(db.events, id, a);
    SameClean(Kept(db, chain, head, id, a), db.events, ps);
  }

  /** Where fetching starts is covered by where it ends, unless it starts over. */
  lemma RangeCovered(db: Db, chain: Chain, head: nat, a: Address, created: nat)
    requires head < |chain|
    ensures var start := StartBlock(db, chain, head, a, created);
      StartsOver(db, chain, head, a) || start <= TargetBlock(start, head) + 1
    ensures StartsOver(db, chain, head, a) ==> StartBlock(db, chain, head, a, created) == created
  {
  }

  lemma SyncedForm(db: Db, chain: Chain, head: nat, id: nat, acceptable: bool)
    requires head < |chain| && SyncLease(db, chain, head, id, acceptable).Synced?
    ensures id in db.leases && db.leases[id].contract.Some? && CreationBlock(db.events, id).Some?
    ensures var a := db.leases[id].contract.value;
      var created := CreationBlock(db.events, id).value;
      var after := SyncLease(db, chain, head, id, acceptable).db;
      var start := StartBlock(db, chain, head, a, created);
      var m := MarkAt(chain, TargetBlock(start, head));
      && after.events == RecordEvents(Kept(db, chain, head, id, a), Some(id), Fetched(db, chain, head, a, created))
      && a in after.checkpoints && after.checkpoints[a] == m
      && id in after.leases && after.leases[id].snapshot == Some(m)
  {
    hide RecordEvents, Fetched, CreationBlock, Kept, StartBlock, TargetBlock;
  }

  /** When the recorded events agree, in terms of what was kept and what is fetched. */
  lemma RecordedExactly(db: Db, chain: Chain, head: nat, id: nat, a: Address, created: nat, base: nat)
    requires WellFormed(chain) && head < |chain|
    ensures var start := StartBlock(db, chain, head, a, created);
      var end := TargetBlock(start, head) + 1;
      var from := BaseBefore(db, chain, head, a, created, base);
      var kept := Kept(db, chain, head, id, a);
      var ps := Fetched(db, chain, head, a, created);
      Agrees(RecordEvents(kept, Some(id), ps), id, a, chain, BaseAfter(db, chain, head, a, created, base), end) <==>
        && Clean(db.events, ps) && Complete(kept, id, a, chain, from, start)
        && Covered(kept, id, a, chain, from, start, ps)
  {
    hide Agrees, RecordEvents, LogsBetween, WellFormed, Kept, Clean, Complete, Covered, StartBlock, StartsOver;
    RangeCovered(db, chain, head, a, created);
    var start := StartBlock(db, chain, head, a, created);
    var end := TargetBlock(start, head) + 1;
    ExtendExactly(Kept(db, chain, head, id, a), id, a, chain, BaseBefore(db, chain, head, a, created, base),
                  start, end);
    KeptClean(db, chain, head, id, a, LogsBetween(chain, a, start, end));
  }

  /** When `syncLease` returns, the rows it shows are exactly the contract's logs on the chain from the given block up
      to the new checkpoint, each once, if and only if: no fetched log has a key the table holds under another name or
      address; the table was complete up to where fetching starts; and it showed nothing that is neither of those
      blocks nor fetched again. This holds of every table. The saved snapshot is at the checkpoint. */
  lemma SyncAgreesExactly(db: Db, chain: Chain, head: nat, id: nat, acceptable: bool, base: nat)
    requires WellFormed(chain) && head < |chain| && SyncLease(db, chain, head, id, acceptable).Synced?
    ensures var a := db.leases[id].contract.value;
      var created := CreationBlock(db.events, id).value;
      var after := SyncLease(db, chain, head, id, acceptable).db;
      var start := StartBlock(db, chain, head, a, created);
      var target := TargetBlock(start, head);
      var from := BaseBefore(db, chain, head, a, created, base);
      var kept := Kept(db, chain, head, id, a);
      var ps := Fetched(db, chain, head, a, created);
      && (Agrees(after.events, id, a, chain, BaseAfter(db, chain, head, a, created, base), target + 1) <==>
          && Clean(db.events, ps) && Complete(kept, id, a, chain, from, start)
          && Covered(kept, id, a, chain, from, start, ps))
      && after.checkpoints[a] == MarkAt(chain, target) && after.leases[id].snapshot == Some(MarkAt(chain, target))
  {
    var a := db.leases[id].contract.value;
    var created := CreationBlock(db.events, id).value;
    hide Agrees, CreationBlock, RecordEvents, Fetched, WellFormed, Kept, Clean, Complete, Covered, SyncLease;
    hide StartBlock, TargetBlock, BaseBefore, BaseAfter, MarkAt;
    SyncedForm(db, chain, head, id, acceptable);
    RecordedExactly(db, chain, head, id, a, created, base);
  }

  lemma NothingToCover(events: Events, id: nat, a: Address, chain: Chain, at: nat, ps: seq<Placed>)
    ensures Complete(events, id, a, chain, at, at)
    ensures NoneShown(events, id, a) ==> Covered(events, id, a, chain, at, at, ps)
  {
    hide Shown;
  }

  /** After a reorganization the replay agrees from the creation block on exactly when what it fetches does not clash,
      however wrong the table was before. */
  lemma ReplayAgreesExactly(db: Db, chain: Chain, head: nat, id: nat, acceptable: bool)
    requires WellFormed(chain) && head < |chain| && SyncLease(db, chain, head, id, acceptable).Synced?
    requires Stale(db, chain, head, db.leases[id].contract.value)
    ensures var a := db.leases[id].contract.value;
      var created := CreationBlock(db.events, id).value;
      var after := SyncLease(db, chain, head, id, acceptable).db;
      Agrees(after.events, id, a, chain, created, TargetBlock(created, head) + 1) <==>
        Clean(db.events, Fetched(db, chain, head, a, created))
  {
    var a := db.leases[id].contract.value;
    var created := CreationBlock(db.events, id).value;
    hide Agrees, CreationBlock, RecordEvents, LogsBetween, WellFormed, Retract, Clashes, Complete, Covered;
    SyncAgreesExactly(db, chain, head, id, acceptable, created);
    RetractShowsNone(db.events, id, a);
    NothingToCover(Retract(db.events, id, a), id, a, chain, created, Fetched(db, chain, head, a, created));
  }

  /** A table in order agrees, before recording, up to the block recording starts at. */
  lemma KeptAgrees(db: Db, chain: Chain, head: nat, id: nat, a: Address, created: nat, base: nat)
    requires head < |chain| && LeaseOk(db, id, a, base)
    ensures Agrees(Kept(db, chain, head, id, a), id, a, chain, BaseBefore(db, chain, head, a, created, base),
                   StartBlock(db, chain, head, a, created))
  {
    if StartsOver(db, chain, head, a) {
      RetractShowsNone(db.events, id, a);
      hide Shown;
    } else {
      var m := db.checkpoints[a];
      assert chain[..m.number + 1] == m.hash == m.hash[..m.number + 1];
      AgreesOnPrefix(db.events, id, a, m.hash, chain, base, m.number + 1);
      hide Agrees;
    }
  }

  /** From a table in order the first condition is all that is left. */
  lemma SyncFromAgreement(db: Db, chain: Chain, head: nat, id: nat, acceptable: bool, base: nat)
    requires WellFormed(chain) && head < |chain| && SyncLease(db, chain, head, id, acceptable).Synced?
    requires LeaseOk(db, id, db.leases[id].contract.value, base)
    ensures var a := db.leases[id].contract.value;
      var created := CreationBlock(db.events, id).value;
      var after := SyncLease(db, chain, head, id, acceptable).db;
      var target := TargetBlock(StartBlock(db, chain, head, a, created), head);
      Agrees(after.events, id, a, chain, BaseAfter(db, chain, head, a, created, base), target + 1) <==>
        Clean(db.events, Fetched(db, chain, head, a, created))
  {
    var a := db.leases[id].contract.value;
    var created := CreationBlock(db.events, id).value;
    hide Agrees, LeaseOk, CreationBlock, Fetched, WellFormed, Kept, Clean, Complete, Covered;
    SyncAgreesExactly(db, chain, head, id, acceptable, base);
    KeptAgrees(db, chain, head, id, a, created, base);
    AgreesCovers(Kept(db, chain, head, id, a), id, a, chain, BaseBefore(db, chain, head, a, created, base),
                 StartBlock(db, chain, head, a, created), Fetched(db, chain, head, a, created));
  }

  /** So that replay puts the lease in order again. */
  lemma ReplayRestores(db: Db, chain: Chain, head: nat, id: nat, acceptable: bool)
    requires WellFormed(chain) && head < |chain| && SyncLease(db, chain, head, id, acceptable).Synced?
    requires Stale(db, chain, head, db.leases[id].contract.value)
    requires var a := db.leases[id].contract.value;
      Clean(db.events, Fetched(db, chain, head, a, CreationBlock(db.events, id).value))
    ensures LeaseOk(SyncLease(db, chain, head, id, acceptable).db, id, db.leases[id].contract.value,
                    CreationBlock(db.events, id).value)
  {
    var a := db.leases[id].contract.value;
    var created := CreationBlock(db.events, id).value;
    var after := SyncLease(db, chain, head, id, acceptable).db;
    hide Agrees, CreationBlock, Clean, Fetched, SyncLease, WellFormed;
    SyncedForm(db, chain, head, id, acceptable);
    ReplayAgreesExactly(db, chain, head, id, acceptable);
    MarkedOk(after, chain, id, a, created, TargetBlock(created, head));
  }

  /** Agreement up to a checkpoint on the chain is order. */
  lemma MarkedOk(db: Db, chain: Chain, id: nat, a: Address, base: nat, target: nat)
    requires target < |chain| && a in db.checkpoints && db.checkpoints[a] == MarkAt(chain, target)
    requires Agrees(db.events, id, a, chain, base, target + 1)
    ensures LeaseOk(db, id, a, base)
  {
    var prefix := chain[..target + 1];
    assert prefix[..target + 1] == prefix;
    AgreesOnPrefix(db.events, id, a, chain, prefix, base, target + 1);
    hide Agrees;
  }

  /** A clean synchronization leaves the lease in order. */
  lemma SyncKeepsLease(db: Db, chain: Chain, head: nat, id: nat, acceptable: bool, base: nat)
    requires WellFormed(chain) && head < |chain| && SyncLease(db, chain, head, id, acceptable).Synced?
    requires LeaseOk(db, id, db.leases[id].contract.value, base)
    requires var a := db.leases[id].contract.value;
      Clean(db.events, Fetched(db, chain, head, a, CreationBlock(db.events, id).value))
    ensures var a := db.leases[id].contract.value;
      LeaseOk(SyncLease(db, chain, head, id, acceptable).db, id, a,
              BaseAfter(db, chain, head, a, CreationBlock(db.events, id).value, base))
  {
    var a := db.leases[id].contract.value;
    var created := CreationBlock(db.events, id).value;
    hide Agrees, CreationBlock, Clean, Fetched, BaseAfter, SyncLease, LeaseOk, WellFormed;
    SyncedForm(db, chain, head, id, acceptable);
    SyncFromAgreement(db, chain, head, id, acceptable, base);
    MarkedOk(SyncLease(db, chain, head, id, acceptable).db, chain, id, a, BaseAfter(db, chain, head, a, created, base),
             TargetBlock(StartBlock(db, chain, head, a, created), head));
  }

  /** A synchronization gets ahead: a current checkpoint moves on by a whole range or to the head, a stale or missing
      one restarts a range at the creation block; afterwards it is current. The lease's jobs are invalidated exactly
      when its checkpoint was stale. */
  lemma SyncProgress(db: Db, chain: Chain, head: nat, id: nat, acceptable: bool)
    requires head < |chain| && SyncLease(db, chain, head, id, acceptable).Synced?
    ensures var a := db.leases[id].contract.value;
      var created := CreationBlock(db.events, id).value;
      var after := SyncLease(db, chain, head, id, acceptable).db;
      && a in after.checkpoints && !Stale(after, chain, head, a)
      && after.checkpoints[a].number
         == (if StartsOver(db, chain, head, a) then Lower(created + RANGE - 1, head)
             else Lower(db.checkpoints[a].number + RANGE, head))
      && (forall b :: b != a && b in db.checkpoints ==> b in after.checkpoints && after.checkpoints[b] == db.checkpoints[b])
      && (Stale(db, chain, head, a) ==>
            forall i :: 0 <= i < |after.tasks| && after.tasks[i].lease == id ==>
              after.tasks[i].state.Cancelled? || after.tasks[i].state.Reconcile?)
      && (!Stale(db, chain, head, a) ==> after.tasks == db.tasks)
  {
    hide RecordEvents, LogsBetween, CreationBlock, Retract;
  }

  /** The contract emits nothing before the block that created it; then a table in order shows everything the
      contract ever did up to the checkpoint. */
  lemma NothingBeforeCreation(events: Events, id: nat, a: Address, chain: Chain, base: nat, end: nat)
    requires Agrees(events, id, a, chain, base, end)
    requires forall p :: !Emitted(chain, a, 0, base, p)
    ensures Agrees(events, id, a, chain, 0, end)
  {
    forall p | Emitted(chain, a, 0, end, p) ensures Emitted(chain, a, base, end, p) {
      assert !Emitted(chain, a, 0, base, p);
    }
    forall p | Emitted(chain, a, base, end, p) ensures Emitted(chain, a, 0, end, p) {
    }
    hide Emitted, Shown, RowFor;
  }

  // ---------- recording for somebody else ----------

  /** The rows of one address are untouched, and none appear. */
  ghost predicate SameAt(events: Events, after: Events, a: Address) {
    forall k :: (k in events && events[k].address == a) || (k in after && after[k].address == a) ==>
      k in events && k in after && after[k] == events[k]
  }

  lemma UntouchedAgrees(events: Events, after: Events, id: nat, a: Address, chain: Chain, from: nat, end: nat)
    requires SameAt(events, after, a)
    ensures Agrees(events, id, a, chain, from, end) ==> Agrees(after, id, a, chain, from, end)
    ensures NoneShown(events, id, a) ==> NoneShown(after, id, a)
  {
    if Agrees(events, id, a, chain, from, end) {
      forall p | Emitted(chain, a, from, end, p)
        ensures KeyOf(p.log) in after && after[KeyOf(p.log)] == RowFor(p, id)
      {
        assert events[KeyOf(p.log)] == RowFor(p, id);
      }
      forall k | k in after && Shown(after[k], id, a)
        ensures exists p :: Emitted(chain, a, from, end, p) && KeyOf(p.log) == k
      {
        assert events[k] == after[k];
      }
    }
    hide Emitted;
  }

  /** Nothing to be recorded has the key of a row of that address. */
  predicate Spares(events: Events, ps: seq<Placed>, a: Address) {
    forall i :: 0 <= i < |ps| && KeyOf(ps[i].log) in events ==> events[KeyOf(ps[i].log)].address != a
  }

  /** Logs of another contract that clash with nothing spare this one's rows. */
  lemma CleanSpares(events: Events, ps: seq<Placed>, b: Address, a: Address)
    requires a != b && Clean(events, ps) && forall i :: 0 <= i < |ps| ==> ps[i].log.address == b
    ensures Spares(events, ps, a)
  {
    forall i | 0 <= i < |ps| && KeyOf(ps[i].log) in events ensures events[KeyOf(ps[i].log)].address != a {
      assert !Clashes(events, ps[i].log);
    }
  }

  /** Recording logs of another contract that spare this one's rows leaves them alone. */
  lemma RecordsElsewhere(events: Events, lease: Option<nat>, ps: seq<Placed>, b: Address, a: Address)
    requires a != b && DistinctPlaced(ps) && Spares(events, ps, a)
    requires forall i :: 0 <= i < |ps| ==> ps[i].log.address == b
    ensures SameAt(events, RecordEvents(events, lease, ps), a)
  {
    var after := RecordEvents(events, lease, ps);
    forall k | (k in events && events[k].address == a) || (k in after && after[k].address == a)
      ensures k in events && k in after && after[k] == events[k]
    {
      RecordAt(events, lease, ps, k);
    }
  }

  lemma RetractsElsewhere(events: Events, other: nat, b: Address, a: Address)
    requires a != b
    ensures SameAt(events, Retract(events, other, b), a)
    ensures forall ps :: Spares(events, ps, a) ==> Spares(Retract(events, other, b), ps, a)
  {
  }

  lemma SameAtTrans(events: Events, middle: Events, after: Events, a: Address)
    requires SameAt(events, middle, a) && SameAt(middle, after, a)
    ensures SameAt(events, after, a)
  {
    forall k | (k in events && events[k].address == a) || (k in after && after[k].address == a)
      ensures k in events && k in after && after[k] == events[k]
    {
      assert k in middle && middle[k].address == a;
    }
  }

  // ---------- a fork that shifts log indices ----------

  const CREATION := Log(9, 0, 7, LeaseCreated, 5, 0)

  /** One transaction emits two events; after a fork it emits only the second, at the first one's index. */
  function BeforeFork(): Chain {
    [Block([CREATION], 0), Block([Log(1, 0, 5, Named(1), 0, 0), Log(1, 1, 5, Named(2), 0, 0)], 0)]
  }

  function AfterFork(): Chain {
    [Block([CREATION], 0), Block([Log(1, 0, 5, Named(2), 0, 0)], 1)]
  }

  function AttachedOnly(): Db {
    Db(map[EventKey(9, 0) := EventRow(MarkAt(BeforeFork(), 0), 7, Some(1), LeaseCreated, 5, 0, true)],
       map[], map[1 := LeaseRec(Some(5), None)], [])
  }

  lemma ForkChains()
    ensures WellFormed(BeforeFork()) && WellFormed(AfterFork())
  {
    TwoBlocks(BeforeFork());
    TwoBlocks(AfterFork());
  }

  /** A chain of a creation block and a block of one other transaction. */
  lemma TwoBlocks(c: Chain)
    requires |c| == 2 && c[0].logs == [CREATION] && 1 <= |c[1].logs| <= 2
    requires forall i :: 0 <= i < |c[1].logs| ==> KeyOf(c[1].logs[i]) == EventKey(1, i)
    ensures WellFormed(c)
  {
    forall n, m, l, l' | 0 <= n < |c| && 0 <= m < |c| && l in c[n].logs && l' in c[m].logs && KeyOf(l) == KeyOf(l')
      ensures n == m && l == l'
    {
      var i :| 0 <= i < |c[n].logs| && c[n].logs[i] == l;
      var j :| 0 <= j < |c[m].logs| && c[m].logs[j] == l';
      assert KeyOf(l).tx == (if n == 0 then 9 else 1) && KeyOf(l').tx == (if m == 0 then 9 else 1);
      assert i == j;
    }
  }

  lemma CreatedAtZero(events: Events)
    requires EventKey(9, 0) in events && IsCreation(events[EventKey(9, 0)], 1) && events[EventKey(9, 0)].mark.number == 0
    ensures CreationBlock(events, 1) == Some(0)
  {
    assert 0 in CreationBlocks(events, 1);
  }

  lemma BeforeForkFetched()
    ensures var ps := Fetched(AttachedOnly(), BeforeFork(), 1, 5, 0);
      ps == [Placed(MarkAt(BeforeFork(), 1), Log(1, 0, 5, Named(1), 0, 0)),
             Placed(MarkAt(BeforeFork(), 1), Log(1, 1, 5, Named(2), 0, 0))]
  {
    var c := BeforeFork();
    var logs := c[1].logs;
    assert PlacedIn([], 5, MarkAt(c, 1)) == [];
    assert logs[..1] == [logs[0]] && logs[..1][..0] == [];
    assert PlacedIn(logs[..1], 5, MarkAt(c, 1)) == [Placed(MarkAt(c, 1), logs[0])];
    assert PlacedIn(c[0].logs, 5, MarkAt(c, 0)) == [];
    assert LogsBetween(c, 5, 0, 1) == [];
  }

  /** The recorded events before the fork: clean, and one row carries the first event's name. */
  lemma BeforeForkSynced()
    ensures SyncLease(AttachedOnly(), BeforeFork(), 1, 1, true).Synced?
    ensures Clean(AttachedOnly().events, Fetched(AttachedOnly(), BeforeFork(), 1, 5, 0))
    ensures CreationBlock(AttachedOnly().events, 1) == Some(0)
    ensures var db := SyncLease(AttachedOnly(), BeforeFork(), 1, 1, true).db;
      && db.leases[1].contract == Some(5) && 5 in db.checkpoints && db.checkpoints[5] == MarkAt(BeforeFork(), 1)
      && EventKey(1, 0) in db.events && db.events[EventKey(1, 0)].name == Named(1)
      && CreationBlock(db.events, 1) == Some(0)
  {
    CreatedAtZero(AttachedOnly().events);
    BeforeForkFetched();
    var ps := Fetched(AttachedOnly(), BeforeFork(), 1, 5, 0);
    var db := SyncLease(AttachedOnly(), BeforeFork(), 1, 1, true).db;
    RecordAt(AttachedOnly().events, Some(1), ps, EventKey(1, 0));
    RecordAt(AttachedOnly().events, Some(1), ps, EventKey(9, 0));
    assert db.events == RecordEvents(AttachedOnly().events, Some(1), ps);
    CreatedAtZero(db.events);
  }

  /** Agreement can fail: the synchronization before the fork agrees, the one after it shows the first event's name
      on the log that now carries the second event. */
  lemma ShiftedIndexMisnamed()
    ensures var first := SyncLease(AttachedOnly(), BeforeFork(), 1, 1, true);
      && first.Synced? && Agrees(first.db.events, 1, 5, BeforeFork(), 0, 2)
      && var second := SyncLease(first.db, AfterFork(), 1, 1, true);
        second.Synced? && !Agrees(second.db.events, 1, 5, AfterFork(), 0, 2)
  {
    hide Agrees, CreationBlock, Clean, Retract, RecordEvents, WellFormed;
    ForkChains();
    BeforeForkSynced();
    assert LeaseOk(AttachedOnly(), 1, 5, 0);
    SyncFromAgreement(AttachedOnly(), BeforeFork(), 1, 1, true, 0);
    var db := SyncLease(AttachedOnly(), BeforeFork(), 1, 1, true).db;
    assert db.checkpoints[5].hash[1] != AfterFork()[1];
    ReplayAgreesExactly(db, AfterFork(), 1, 1, true);
    var p := Placed(MarkAt(AfterFork(), 1), Log(1, 0, 5, Named(2), 0, 0));
    LogsBetweenExactly(AfterFork(), 5, 0, 2, p);
    ClashNotClean(db.events, Fetched(db, AfterFork(), 1, 5, 0), p);
  }

  lemma ClashNotClean(events: Events, ps: seq<Placed>, p: Placed)
    requires p in ps && Clashes(events, p.log)
    ensures !Clean(events, ps)
  {
  }
}
