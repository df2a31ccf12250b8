/** The whole indexer over time: lease and factory synchronizations, attachments and forks, in any order
    (apps/worker/src/indexer/loop.ts:8-47, apps/web/src/server/projections.ts:95-160). */
module IndexerRuns {
  import opened Options
  import opened EscrowTypes
  import opened Projection
  import opened ProjectionAgreement
  import W = WorkerTasks

  // ---------- the factory ----------

  /** The leases whose contract a creation event names. */
  function OwnersOf(leases: map<nat, LeaseRec>, escrow: Address): set<nat> {
    set id | id in leases && leases[id].contract == Some(escrow)
  }

  function Owner(leases: map<nat, LeaseRec>, l: Log): Option<nat> {
    if l.name.LeaseCreated? && OwnersOf(leases, l.escrow) != {} then Some(Least(OwnersOf(leases, l.escrow))) else None
  }

  /** Each factory event is recorded for the lease it created, if that lease is attached. */
  function RecordFactory(events: Events, leases: map<nat, LeaseRec>, ps: seq<Placed>): Events
    decreases |ps|
  {
    if ps == [] then events
    else RecordFactory(RecordEvents(events, Owner(leases, ps[0].log), [ps[0]]), leases, ps[1..])
  }

  function Deployed(leases: map<nat, LeaseRec>, id: nat): bool {
    id in leases && leases[id].contract.Some?
  }

  function InvalidatedTasks(tasks: seq<W.Task>, leases: map<nat, LeaseRec>): seq<W.Task> {
    seq(|tasks|, i requires 0 <= i < |tasks| =>
      if Deployed(leases, tasks[i].lease) then W.Invalidated(tasks[i], tasks[i].lease) else tasks[i])
  }

  /** The chain-wide invalidation of a factory reorganization. */
  function InvalidateAll(db: Db): Db {
    Db(map k | k in db.events :: db.events[k].(canonical := false),
       map[],
       map id | id in db.leases ::
         if db.leases[id].contract.Some? then db.leases[id].(snapshot := None) else db.leases[id],
       InvalidatedTasks(db.tasks, db.leases))
  }

  predicate FactoryChanged(db: Db, chain: Chain, head: nat, factory: Address)
    requires head < |chain|
  {
    factory in db.checkpoints && !Contains(chain, head, db.checkpoints[factory])
  }

  function FactoryKept(db: Db, chain: Chain, head: nat, factory: Address): Db
    requires head < |chain|
  {
    if FactoryChanged(db, chain, head, factory) then InvalidateAll(db) else db
  }

  function FactoryFrom(db: Db, chain: Chain, head: nat, factory: Address, deployment: nat): nat
    requires head < |chain|
  {
    if factory in db.checkpoints && !FactoryChanged(db, chain, head, factory)
    then db.checkpoints[factory].number + 1 else deployment
  }

  function FactoryTo(from: nat, head: nat, batch: nat): (t: nat)
    requires batch > 0 && from <= head
    ensures from <= t <= head
  {
    if from + batch - 1 < head then from + batch - 1 else head
  }

  function FactoryFetched(db: Db, chain: Chain, head: nat, factory: Address, deployment: nat, batch: nat): seq<Placed>
    requires head < |chain| && batch > 0
  {
    var from := FactoryFrom(db, chain, head, factory, deployment);
    if from > head then [] else LogsBetween(chain, factory, from, FactoryTo(from, head, batch) + 1)
  }

  /** `syncFactory` on a chain that stays put meanwhile. */
  function SyncFactory(db: Db, chain: Chain, head: nat, factory: Address, deployment: nat, batch: nat): Db
    requires head < |chain| && batch > 0
  {
    var from := FactoryFrom(db, chain, head, factory, deployment);
    var kept := FactoryKept(db, chain, head, factory);
    if from > head then kept
    else kept.(events := RecordFactory(kept.events, kept.leases,
                                       FactoryFetched(db, chain, head, factory, deployment, batch)),
               checkpoints := kept.checkpoints[factory := MarkAt(chain, FactoryTo(from, head, batch))])
  }

  /** `attachDeployment`, once its checks have passed: the lease gets its contract for good, a first snapshot, and its
      creation event. */
  predicate CanAttach(db: Db, factory: Address, id: nat, a: Address, p: Placed) {
    && id in db.leases && (db.leases[id].contract.None? || db.leases[id].contract == Some(a))
    && (forall other :: other in db.leases && other != id ==> db.leases[other].contract != Some(a))
    && a != factory && p.log.address == factory
  }

  function Attach(db: Db, id: nat, a: Address, p: Placed, snapshot: Mark): Db
    requires id in db.leases
  {
    db.(leases := db.leases[id := LeaseRec(Some(a), Some(snapshot))], events := RecordEvents(db.events, Some(id), [p]))
  }

  // ---------- what holds between the steps ----------

  predicate ContractIs(db: Db, id: nat, a: Address) {
    id in db.leases && db.leases[id].contract == Some(a)
  }

  /** Rows belong to the factory or to the contract of their lease. */
  predicate RowOwned(r: EventRow, db: Db, factory: Address) {
    r.address == factory || (r.lease.Some? && ContractIs(db, r.lease.value, r.address))
  }

  ghost predicate Tidy(db: Db, factory: Address) {
    && (forall k :: k in db.events ==> RowOwned(db.events[k], db, factory))
    && (forall a :: a in db.checkpoints ==> a == factory || exists id :: ContractIs(db, id, a))
    && (forall id, other, a :: ContractIs(db, id, a) && ContractIs(db, other, a) ==> id == other)
    && (forall id :: !ContractIs(db, id, factory))
  }

  /** Every attached lease's shown events agree with the chain its checkpoint stands for. */
  ghost predicate LeasesOk(db: Db, bases: map<nat, nat>) {
    forall id, a :: ContractIs(db, id, a) ==> LeaseOk(db, id, a, BaseOf(bases, id))
  }

  function BaseOf(bases: map<nat, nat>, id: nat): nat {
    if id in bases then bases[id] else 0
  }

  /** The present chain, the database, and for every lease the block its shown events reach back to. */
  datatype System = System(chain: Chain, db: Db, bases: map<nat, nat>)

  ghost predicate SystemOk(s: System, factory: Address) {
    WellFormed(s.chain) && Tidy(s.db, factory) && LeasesOk(s.db, s.bases)
  }

  datatype Step =
    | Fork(next: Chain)
    | SyncOne(head: nat, id: nat, acceptable: bool)
    | SyncAll(head: nat, deployment: nat, batch: nat)
    | AttachOne(id: nat, a: Address, p: Placed, snapshot: Mark)

  /** The step can be taken: whatever it records may clash with rows that are there. */
  predicate Possible(s: System, factory: Address, step: Step) {
    match step
    case Fork(next) => WellFormed(next)
    case SyncOne(head, _, _) => head < |s.chain|
    case SyncAll(head, _, batch) => head < |s.chain| && batch > 0
    case AttachOne(id, a, p, _) => CanAttach(s.db, factory, id, a, p)
  }

  /** What a lease's synchronization fetches, if it returns. */
  function SyncFetched(s: System, head: nat, id: nat, acceptable: bool): seq<Placed>
    requires head < |s.chain|
  {
    if SyncLease(s.db, s.chain, head, id, acceptable).Synced?
    then Fetched(s.db, s.chain, head, s.db.leases[id].contract.value, CreationBlock(s.db.events, id).value)
    else []
  }

  /** The events a step records. */
  function Records(s: System, factory: Address, step: Step): seq<Placed>
    requires Possible(s, factory, step)
  {
    match step
    case Fork(_) => []
    case SyncOne(head, id, acceptable) => SyncFetched(s, head, id, acceptable)
    case SyncAll(head, deployment, batch) => FactoryFetched(s.db, s.chain, head, factory, deployment, batch)
    case AttachOne(_, _, p, _) => [p]
  }

  /** The step is possible, and no event it records clashes with a row. */
  predicate CleanStep(s: System, factory: Address, step: Step) {
    Possible(s, factory, step) && Clean(s.db.events, Records(s, factory, step))
  }

  function Next(s: System, factory: Address, step: Step): System
    requires Possible(s, factory, step)
  {
    match step
    case Fork(next) => s.(chain := next)
    case SyncOne(head, id, acceptable) =>
      var o := SyncLease(s.db, s.chain, head, id, acceptable);
      if !o.Synced? then s
      else
        var created := CreationBlock(s.db.events, id).value;
        var a := s.db.leases[id].contract.value;
        s.(db := o.db, bases := s.bases[id := BaseAfter(s.db, s.chain, head, a, created, BaseOf(s.bases, id))])
    case SyncAll(head, deployment, batch) => s.(db := SyncFactory(s.db, s.chain, head, factory, deployment, batch))
    case AttachOne(id, a, p, snapshot) => s.(db := Attach(s.db, id, a, p, snapshot))
  }

  // ---------- preservation ----------

  /** What keeps a lease in order through somebody else's change. */
  lemma LeaseKept(db: Db, db': Db, id: nat, a: Address, base: nat)
    requires LeaseOk(db, id, a, base) && SameAt(db.events, db'.events, a)
    requires a in db.checkpoints <==> a in db'.checkpoints
    requires a in db.checkpoints ==> db'.checkpoints[a] == db.checkpoints[a]
    ensures LeaseOk(db', id, a, base)
  {
    if a in db.checkpoints {
      var m := db.checkpoints[a];
      UntouchedAgrees(db.events, db'.events, id, a, m.hash, base, m.number + 1);
    } else {
      UntouchedAgrees(db.events, db'.events, id, a, [], 0, 0);
    }
    hide Agrees, NoneShown, SameAt;
  }

  lemma FetchedAre(chain: Chain, a: Address, from: nat, end: nat)
    requires end <= |chain| && WellFormed(chain)
    ensures DistinctPlaced(LogsBetween(chain, a, from, end))
    ensures forall p :: p in LogsBetween(chain, a, from, end) ==> p.log.address == a
  {
    LogsBetweenDistinct(chain, a, from, end);
    forall p | p in LogsBetween(chain, a, from, end) ensures p.log.address == a {
      LogsBetweenExactly(chain, a, from, end, p);
    }
  }

  /** A lease's own synchronization leaves every other contract's rows alone. */
  lemma SyncElsewhere(s: System, head: nat, id: nat, acceptable: bool, other: Address)
    requires WellFormed(s.chain) && head < |s.chain| && SyncLease(s.db, s.chain, head, id, acceptable).Synced?
    requires s.db.leases[id].contract.value != other && Spares(s.db.events, SyncFetched(s, head, id, acceptable), other)
    ensures SameAt(s.db.events, SyncLease(s.db, s.chain, head, id, acceptable).db.events, other)
  {
    var a := s.db.leases[id].contract.value;
    var created := CreationBlock(s.db.events, id).value;
    var kept := Kept(s.db, s.chain, head, id, a);
    var ps := Fetched(s.db, s.chain, head, a, created);
    var start := StartBlock(s.db, s.chain, head, a, created);
    FetchedAre(s.chain, a, start, TargetBlock(start, head) + 1);
    RetractsElsewhere(s.db.events, id, a, other);
    assert SameAt(s.db.events, kept, other);
    RecordsElsewhere(kept, Some(id), ps, a, other);
    SameAtTrans(s.db.events, kept, RecordEvents(kept, Some(id), ps), other);
  }

  /** Recording for a lease's contract keeps rows owned. */
  lemma RecordOwned(events: Events, lease: Option<nat>, ps: seq<Placed>, b: Address, k: EventKey)
    requires DistinctPlaced(ps) && Clean(events, ps) && forall i :: 0 <= i < |ps| ==> ps[i].log.address == b
    requires k in RecordEvents(events, lease, ps)
    ensures var r := RecordEvents(events, lease, ps)[k];
      (k in events && r == events[k]) || (r.address == b && (lease.Some? ==> r.lease == lease))
  {
    RecordAt(events, lease, ps, k);
    if i: nat :| i < |ps| && KeyOf(ps[i].log) == k { assert !Clashes(events, ps[i].log); }
  }

  lemma SyncRowsOwned(s: System, factory: Address, head: nat, id: nat, acceptable: bool, k: EventKey)
    requires WellFormed(s.chain) && CleanStep(s, factory, SyncOne(head, id, acceptable))
    requires SyncLease(s.db, s.chain, head, id, acceptable).Synced?
    requires k in SyncLease(s.db, s.chain, head, id, acceptable).db.events
    ensures var a := s.db.leases[id].contract.value;
      var r := SyncLease(s.db, s.chain, head, id, acceptable).db.events[k];
      || (r.lease == Some(id) && r.address == a)
      || (k in s.db.events && r.lease == s.db.events[k].lease && r.address == s.db.events[k].address)
  {
    hide CreationBlock, LogsBetween, WellFormed;
    var a := s.db.leases[id].contract.value;
    var created := CreationBlock(s.db.events, id).value;
    var kept := Kept(s.db, s.chain, head, id, a);
    var ps := Fetched(s.db, s.chain, head, a, created);
    var start := StartBlock(s.db, s.chain, head, a, created);
    FetchedAre(s.chain, a, start, TargetBlock(start, head) + 1);
    RetractShowsNone(s.db.events, id, a);
    SameClean(s.db.events, kept, ps);
    RecordOwned(kept, Some(id), ps, a, k);
    hide RecordEvents;
  }

  lemma SyncTidy(s: System, factory: Address, head: nat, id: nat, acceptable: bool)
    requires SystemOk(s, factory) && CleanStep(s, factory, SyncOne(head, id, acceptable))
    requires SyncLease(s.db, s.chain, head, id, acceptable).Synced?
    ensures Tidy(SyncLease(s.db, s.chain, head, id, acceptable).db, factory)
  {
    hide LeasesOk, CreationBlock, RecordEvents, Kept, Fetched, WellFormed, Clean;
    var a := s.db.leases[id].contract.value;
    var db' := SyncLease(s.db, s.chain, head, id, acceptable).db;
    assert forall other, b :: ContractIs(db', other, b) <==> ContractIs(s.db, other, b);
    assert ContractIs(db', id, a);
    forall k | k in db'.events ensures RowOwned(db'.events[k], db', factory) {
      SyncRowsOwned(s, factory, head, id, acceptable, k);
      if k in s.db.events { assert RowOwned(s.db.events[k], s.db, factory); }
    }
    SameContracts(s.db, db', factory);
  }

  /** The clauses about contracts depend on the contracts only. */
  lemma SameContracts(db: Db, db': Db, factory: Address)
    requires Tidy(db, factory) && forall id, a :: ContractIs(db', id, a) <==> ContractIs(db, id, a)
    ensures forall id, other, a :: ContractIs(db', id, a) && ContractIs(db', other, a) ==> id == other
    ensures forall id :: !ContractIs(db', id, factory)
  {
    hide ContractIs;
  }

  lemma SyncSpares(s: System, factory: Address, head: nat, id: nat, acceptable: bool, other: Address)
    requires WellFormed(s.chain) && CleanStep(s, factory, SyncOne(head, id, acceptable))
    requires SyncLease(s.db, s.chain, head, id, acceptable).Synced? && s.db.leases[id].contract.value != other
    ensures Spares(s.db.events, SyncFetched(s, head, id, acceptable), other)
  {
    hide SyncLease, LogsBetween, CreationBlock, Clean, Spares, WellFormed, StartBlock, TargetBlock;
    SyncLeaseHas(s, head, id, acceptable);
    var a := s.db.leases[id].contract.value;
    var start := StartBlock(s.db, s.chain, head, a, CreationBlock(s.db.events, id).value);
    FetchedAre(s.chain, a, start, TargetBlock(start, head) + 1);
    CleanSpares(s.db.events, SyncFetched(s, head, id, acceptable), a, other);
  }

  lemma SyncLeaseHas(s: System, head: nat, id: nat, acceptable: bool)
    requires head < |s.chain| && SyncLease(s.db, s.chain, head, id, acceptable).Synced?
    ensures id in s.db.leases && s.db.leases[id].contract.Some? && CreationBlock(s.db.events, id).Some?
  {
    hide CreationBlock;
  }

  lemma SyncOk(s: System, factory: Address, head: nat, id: nat, acceptable: bool)
    requires SystemOk(s, factory) && CleanStep(s, factory, SyncOne(head, id, acceptable))
    requires SyncLease(s.db, s.chain, head, id, acceptable).Synced?
    ensures SystemOk(Next(s, factory, SyncOne(head, id, acceptable)), factory)
  {
    var s' := Next(s, factory, SyncOne(head, id, acceptable));
    SyncTidy(s, factory, head, id, acceptable);
    var a := s.db.leases[id].contract.value;
    assert ContractIs(s.db, id, a);
    SyncKeepsLease(s.db, s.chain, head, id, acceptable, BaseOf(s.bases, id));
    forall other, b | ContractIs(s'.db, other, b) ensures LeaseOk(s'.db, other, b, BaseOf(s'.bases, other)) {
      assert ContractIs(s.db, other, b);
      if other != id {
        SyncSpares(s, factory, head, id, acceptable, b);
        SyncElsewhere(s, head, id, acceptable, b);
        LeaseKept(s.db, s'.db, other, b, BaseOf(s.bases, other));
      }
    }
    hide LeaseOk, BaseAfter;
  }

  lemma {:induction false} FactoryElsewhere(events: Events, leases: map<nat, LeaseRec>, ps: seq<Placed>,
                                            factory: Address, a: Address)
    requires a != factory && DistinctPlaced(ps) && Spares(events, ps, a)
    requires forall i :: 0 <= i < |ps| ==> ps[i].log.address == factory
    ensures SameAt(events, RecordFactory(events, leases, ps), a)
    decreases |ps|
  {
    if ps != [] {
      var lease := Owner(leases, ps[0].log);
      var events1 := RecordEvents(events, lease, [ps[0]]);
      RecordsElsewhere(events, lease, [ps[0]], factory, a);
      var rest := ps[1..];
      assert forall i :: 0 <= i < |rest| ==> rest[i] == ps[i + 1];
      forall i | 0 <= i < |rest| && KeyOf(rest[i].log) in events1 ensures events1[KeyOf(rest[i].log)].address != a {
        RecordAt(events, lease, [ps[0]], KeyOf(rest[i].log));
      }
      FactoryElsewhere(events1, leases, rest, factory, a);
      SameAtTrans(events, events1, RecordFactory(events1, leases, rest), a);
    }
  }

  /** Clean factory events change only the factory's rows. */
  lemma {:induction false} FactoryRows(events: Events, leases: map<nat, LeaseRec>, ps: seq<Placed>, factory: Address)
    requires DistinctPlaced(ps) && Clean(events, ps) && forall i :: 0 <= i < |ps| ==> ps[i].log.address == factory
    ensures forall k :: k in RecordFactory(events, leases, ps) ==>
      (k in events && RecordFactory(events, leases, ps)[k] == events[k])
      || RecordFactory(events, leases, ps)[k].address == factory
    decreases |ps|
  {
    if ps != [] {
      var lease := Owner(leases, ps[0].log);
      var events1 := RecordEvents(events, lease, [ps[0]]);
      var rest := ps[1..];
      assert forall i :: 0 <= i < |rest| ==> rest[i] == ps[i + 1];
      forall i | 0 <= i < |rest| ensures !Clashes(events1, rest[i].log) {
        RecordAt(events, lease, [ps[0]], KeyOf(rest[i].log));
        assert !Clashes(events, ps[i + 1].log);
      }
      FactoryRows(events1, leases, rest, factory);
      forall k | k in events1 ensures (k in events && events1[k] == events[k]) || events1[k].address == factory {
        RecordOwned(events, lease, [ps[0]], factory, k);
      }
    }
  }

  lemma InvalidatedShowsNone(db: Db, id: nat, a: Address, base: nat)
    ensures LeaseOk(InvalidateAll(db), id, a, base)
    ensures forall l :: Clashes(InvalidateAll(db).events, l) <==> Clashes(db.events, l)
  {
  }

  lemma InvalidatedTidy(db: Db, factory: Address)
    requires Tidy(db, factory)
    ensures Tidy(InvalidateAll(db), factory)
    ensures forall id, a :: ContractIs(InvalidateAll(db), id, a) <==> ContractIs(db, id, a)
  {
    var db' := InvalidateAll(db);
    assert forall id, a :: ContractIs(db', id, a) <==> ContractIs(db, id, a);
    SameContracts(db, db', factory);
    forall k | k in db'.events ensures RowOwned(db'.events[k], db', factory) {
      assert RowOwned(db.events[k], db, factory);
    }
    hide ContractIs;
  }

  /** A chain-wide invalidation shows nothing of any lease, forgets every cursor and snapshot, and leaves no task of
      an attached lease live: what was signed awaits reconciliation, the rest is cancelled. */
  lemma InvalidationComplete(db: Db)
    ensures var db' := InvalidateAll(db);
      && (forall k :: k in db'.events ==> !db'.events[k].canonical)
      && db'.checkpoints == map[]
      && (forall id :: Deployed(db.leases, id) ==> db'.leases[id].snapshot.None?)
      && (forall i :: 0 <= i < |db.tasks| && Deployed(db.leases, db.tasks[i].lease) ==>
            db'.tasks[i].state.Cancelled? || db'.tasks[i].state.Reconcile?)
      && (forall i :: 0 <= i < |db.tasks| ==> db'.tasks[i].raw == db.tasks[i].raw)
  {
  }

  lemma FactoryKeptOk(s: System, factory: Address, head: nat)
    requires SystemOk(s, factory) && head < |s.chain|
    ensures var kept := FactoryKept(s.db, s.chain, head, factory);
      && SystemOk(s.(db := kept), factory)
      && (forall l :: Clashes(kept.events, l) <==> Clashes(s.db.events, l))
  {
    if FactoryChanged(s.db, s.chain, head, factory) {
      InvalidatedTidy(s.db, factory);
      var kept := InvalidateAll(s.db);
      InvalidatedShowsNone(s.db, 0, 0, 0);
      forall id, a | ContractIs(kept, id, a) ensures LeaseOk(kept, id, a, BaseOf(s.bases, id)) {
        InvalidatedShowsNone(s.db, id, a, BaseOf(s.bases, id));
      }
    }
    hide LeaseOk, Tidy, InvalidateAll;
  }

  /** Recording factory events and moving the factory cursor keeps the system in order. */
  lemma FactoryRecordOk(s: System, factory: Address, ps: seq<Placed>, m: Mark)
    requires SystemOk(s, factory) && DistinctPlaced(ps) && Clean(s.db.events, ps)
    requires forall i :: 0 <= i < |ps| ==> ps[i].log.address == factory
    ensures SystemOk(s.(db := s.db.(events := RecordFactory(s.db.events, s.db.leases, ps),
                                    checkpoints := s.db.checkpoints[factory := m])), factory)
  {
    hide LeaseOk, RecordFactory, WellFormed, Clean, DistinctPlaced, SameAt;
    var db' := s.db.(events := RecordFactory(s.db.events, s.db.leases, ps),
                     checkpoints := s.db.checkpoints[factory := m]);
    assert forall id, a :: ContractIs(db', id, a) <==> ContractIs(s.db, id, a);
    FactoryRows(s.db.events, s.db.leases, ps, factory);
    forall k | k in db'.events ensures RowOwned(db'.events[k], db', factory) {
      if k in s.db.events { assert RowOwned(s.db.events[k], s.db, factory); }
    }
    forall id, a | ContractIs(db', id, a) ensures LeaseOk(db', id, a, BaseOf(s.bases, id)) {
      assert ContractIs(s.db, id, a);
      CleanSpares(s.db.events, ps, factory, a);
      FactoryElsewhere(s.db.events, s.db.leases, ps, factory, a);
      LeaseKept(s.db, db', id, a, BaseOf(s.bases, id));
    }
    SameContracts(s.db, db', factory);
  }

  lemma FactoryOk(s: System, factory: Address, head: nat, deployment: nat, batch: nat)
    requires SystemOk(s, factory) && CleanStep(s, factory, SyncAll(head, deployment, batch))
    ensures SystemOk(Next(s, factory, SyncAll(head, deployment, batch)), factory)
  {
    hide Tidy, LeasesOk, RecordFactory, LogsBetween, Clashes, InvalidateAll;
    FactoryKeptOk(s, factory, head);
    var from := FactoryFrom(s.db, s.chain, head, factory, deployment);
    var kept := FactoryKept(s.db, s.chain, head, factory);
    if from <= head {
      var ps := FactoryFetched(s.db, s.chain, head, factory, deployment, batch);
      FetchedAre(s.chain, factory, from, FactoryTo(from, head, batch) + 1);
      SameClean(s.db.events, kept.events, ps);
      FactoryRecordOk(s.(db := kept), factory, ps, MarkAt(s.chain, FactoryTo(from, head, batch)));
    }
  }

  lemma AttachOk(s: System, factory: Address, id: nat, a: Address, p: Placed, snapshot: Mark)
    requires SystemOk(s, factory) && CleanStep(s, factory, AttachOne(id, a, p, snapshot))
    ensures SystemOk(Next(s, factory, AttachOne(id, a, p, snapshot)), factory)
  {
    var db' := Attach(s.db, id, a, p, snapshot);
    var ps := [p];
    forall k | k in db'.events ensures RowOwned(db'.events[k], db', factory) {
      RecordOwned(s.db.events, Some(id), ps, factory, k);
      if k in s.db.events { assert RowOwned(s.db.events[k], s.db, factory); }
    }
    assert forall other, b :: ContractIs(db', other, b) <==> ContractIs(s.db, other, b) || (other == id && b == a);
    forall b | b in db'.checkpoints ensures b == factory || exists other :: ContractIs(db', other, b) {
      if b != factory {
        var other :| ContractIs(s.db, other, b);
        assert ContractIs(db', other, b);
      }
    }
    forall other, b | ContractIs(db', other, b) ensures LeaseOk(db', other, b, BaseOf(s.bases, other)) {
      CleanSpares(s.db.events, ps, factory, b);
      RecordsElsewhere(s.db.events, Some(id), ps, factory, b);
      if ContractIs(s.db, other, b) {
        LeaseKept(s.db, db', other, b, BaseOf(s.bases, other));
      } else {
        NewlyAttached(s.db, factory, id, a);
        UntouchedAgrees(s.db.events, db'.events, id, a, [], 0, 0);
      }
    }
    hide LeaseOk, RecordEvents, WellFormed;
  }

  /** Before it is attached, nothing is known of a contract. */
  lemma NewlyAttached(db: Db, factory: Address, id: nat, a: Address)
    requires Tidy(db, factory) && a != factory && forall other :: !ContractIs(db, other, a)
    ensures a !in db.checkpoints && NoneShown(db.events, id, a)
  {
    forall k | k in db.events ensures !Shown(db.events[k], id, a) {
      assert RowOwned(db.events[k], db, factory);
    }
  }

  /** Every clean step keeps the system in order. */
  lemma StepOk(s: System, factory: Address, step: Step)
    requires SystemOk(s, factory) && CleanStep(s, factory, step)
    ensures SystemOk(Next(s, factory, step), factory)
  {
    match step
    case Fork(next) => hide LeasesOk, Tidy;
    case SyncOne(head, id, acceptable) =>
      if SyncLease(s.db, s.chain, head, id, acceptable).Synced? { SyncOk(s, factory, head, id, acceptable); }
      hide SystemOk;
    case SyncAll(head, deployment, batch) => FactoryOk(s, factory, head, deployment, batch);
    case AttachOne(id, a, p, snapshot) => AttachOk(s, factory, id, a, p, snapshot);
  }

  /** Any steps at all, each possible when it is taken. */
  predicate PossibleRun(s: System, factory: Address, steps: seq<Step>)
    decreases |steps|
  {
    steps != [] ==> Possible(s, factory, steps[0]) && PossibleRun(Next(s, factory, steps[0]), factory, steps[1..])
  }

  function Run(s: System, factory: Address, steps: seq<Step>): System
    requires PossibleRun(s, factory, steps)
    decreases |steps|
  {
    if steps == [] then s else Run(Next(s, factory, steps[0]), factory, steps[1..])
  }

  /** A run in which no recorded event clashes. */
  predicate CleanRun(s: System, factory: Address, steps: seq<Step>)
    requires PossibleRun(s, factory, steps)
    decreases |steps|
  {
    steps != [] ==> CleanStep(s, factory, steps[0]) && CleanRun(Next(s, factory, steps[0]), factory, steps[1..])
  }

  lemma {:induction false} RunOk(s: System, factory: Address, steps: seq<Step>)
    requires SystemOk(s, factory) && PossibleRun(s, factory, steps) && CleanRun(s, factory, steps)
    ensures SystemOk(Run(s, factory, steps), factory)
    decreases |steps|
  {
    hide SystemOk, CleanStep, Possible, Next;
    if steps != [] {
      StepOk(s, factory, steps[0]);
      RunOk(Next(s, factory, steps[0]), factory, steps[1..]);
    }
  }

  /** A database nothing has been attached to. */
  lemma FreshOk(chain: Chain, leases: map<nat, LeaseRec>, factory: Address)
    requires WellFormed(chain) && forall id :: id in leases ==> leases[id].contract.None?
    ensures SystemOk(System(chain, Db(map[], map[], leases, []), map[]), factory)
  {
  }

  // ---------- any run ----------

  /** No two leases have one contract, and none has the factory's. */
  ghost predicate Apart(db: Db, factory: Address) {
    && (forall id, other, a :: ContractIs(db, id, a) && ContractIs(db, other, a) ==> id == other)
    && (forall id :: !ContractIs(db, id, factory))
  }

  /** What no step can disturb, clean or not. */
  ghost predicate Sound(s: System, factory: Address) {
    WellFormed(s.chain) && Apart(s.db, factory)
  }

  lemma OkIsSound(s: System, factory: Address)
    requires SystemOk(s, factory)
    ensures Sound(s, factory)
  {
    hide LeasesOk, WellFormed;
  }

  /** Only an attachment changes whose contract is where. */
  lemma StepContracts(s: System, factory: Address, step: Step)
    requires Possible(s, factory, step)
    ensures forall other, b :: ContractIs(Next(s, factory, step).db, other, b) <==>
      ContractIs(s.db, other, b) || (step.AttachOne? && other == step.id && b == step.a)
  {
    hide CreationBlock, RecordEvents, LogsBetween, Kept, Fetched, RecordFactory, FactoryFetched, BaseAfter;
  }

  lemma StepSound(s: System, factory: Address, step: Step)
    requires Sound(s, factory) && Possible(s, factory, step)
    ensures Sound(Next(s, factory, step), factory)
  {
    StepContracts(s, factory, step);
    StepChain(s, factory, step);
    hide Next, WellFormed;
    var db' := Next(s, factory, step).db;
    forall id, other, a | ContractIs(db', id, a) && ContractIs(db', other, a) ensures id == other {
      if step.AttachOne? && a == step.a { OthersElsewhere(s.db, factory, step); }
    }
  }

  lemma OthersElsewhere(db: Db, factory: Address, step: Step)
    requires step.AttachOne? && CanAttach(db, factory, step.id, step.a, step.p)
    ensures forall other :: ContractIs(db, other, step.a) ==> other == step.id
  {
  }

  lemma StepChain(s: System, factory: Address, step: Step)
    requires Sound(s, factory) && Possible(s, factory, step)
    ensures WellFormed(Next(s, factory, step).chain)
  {
    hide SyncLease, SyncFactory, WellFormed, BaseAfter, CreationBlock;
  }

  lemma {:induction false} RunSound(s: System, factory: Address, steps: seq<Step>)
    requires Sound(s, factory) && PossibleRun(s, factory, steps)
    ensures Sound(Run(s, factory, steps), factory)
    decreases |steps|
  {
    hide Sound, Possible, Next;
    if steps != [] {
      StepSound(s, factory, steps[0]);
      RunSound(Next(s, factory, steps[0]), factory, steps[1..]);
    }
  }

  /** After any run at all, whenever a further `syncLease` returns: it shows exactly the contract's logs from a given
      block up to the checkpoint if and only if what it fetched does not clash, the table was complete before, and
      nothing else was shown; a replay after a reorganization does if and only if what it fetched does not clash. The
      checkpoint is on the chain and the snapshot is at it. */
  lemma RunThenSync(s: System, factory: Address, steps: seq<Step>, head: nat, id: nat, acceptable: bool, base: nat)
    requires Sound(s, factory) && PossibleRun(s, factory, steps)
    requires head < |Run(s, factory, steps).chain|
    requires SyncLease(Run(s, factory, steps).db, Run(s, factory, steps).chain, head, id, acceptable).Synced?
    ensures var t := Run(s, factory, steps);
      var a := t.db.leases[id].contract.value;
      var created := CreationBlock(t.db.events, id).value;
      var after := SyncLease(t.db, t.chain, head, id, acceptable).db;
      var m := after.checkpoints[a];
      var from := BaseBefore(t.db, t.chain, head, a, created, base);
      var start := StartBlock(t.db, t.chain, head, a, created);
      var ps := Fetched(t.db, t.chain, head, a, created);
      && m.number <= head && m == MarkAt(t.chain, m.number) && after.leases[id].snapshot == Some(m)
      && (Agrees(after.events, id, a, t.chain, BaseAfter(t.db, t.chain, head, a, created, base), m.number + 1) <==>
            && Clean(t.db.events, ps) && Complete(Kept(t.db, t.chain, head, id, a), id, a, t.chain, from, start)
            && Covered(Kept(t.db, t.chain, head, id, a), id, a, t.chain, from, start, ps))
      && (Stale(t.db, t.chain, head, a) ==>
            (Agrees(after.events, id, a, t.chain, created, m.number + 1) <==> Clean(t.db.events, ps)))
  {
    hide Agrees, BaseAfter, BaseBefore, Clean, Fetched, CreationBlock, Run, PossibleRun, Kept, WellFormed;
    hide Complete, Covered, StartBlock, SyncLease, Apart, Stale;
    var t := Run(s, factory, steps);
    RunSound(s, factory, steps);
    SyncedForm(t.db, t.chain, head, id, acceptable);
    SyncAgreesExactly(t.db, t.chain, head, id, acceptable, base);
    if Stale(t.db, t.chain, head, t.db.leases[id].contract.value) {
      StaleStarts(t.db, t.chain, head, t.db.leases[id].contract.value, CreationBlock(t.db.events, id).value);
      ReplayAgreesExactly(t.db, t.chain, head, id, acceptable);
    }
  }

  lemma StaleStarts(db: Db, chain: Chain, head: nat, a: Address, created: nat)
    requires head < |chain| && Stale(db, chain, head, a)
    ensures StartBlock(db, chain, head, a, created) == created
  {
  }

  /** After a run without a clash only the first condition is left. */
  lemma CleanRunThenSync(s: System, factory: Address, steps: seq<Step>, head: nat, id: nat, acceptable: bool)
    requires SystemOk(s, factory) && PossibleRun(s, factory, steps) && CleanRun(s, factory, steps)
    requires head < |Run(s, factory, steps).chain|
    requires SyncLease(Run(s, factory, steps).db, Run(s, factory, steps).chain, head, id, acceptable).Synced?
    ensures var t := Run(s, factory, steps);
      var a := t.db.leases[id].contract.value;
      var created := CreationBlock(t.db.events, id).value;
      var after := SyncLease(t.db, t.chain, head, id, acceptable).db;
      Agrees(after.events, id, a, t.chain, BaseAfter(t.db, t.chain, head, a, created, BaseOf(t.bases, id)),
             after.checkpoints[a].number + 1)
      <==> Clean(t.db.events, Fetched(t.db, t.chain, head, a, created))
  {
    hide LeaseOk, Agrees, BaseAfter, Clean, Fetched, CreationBlock, Tidy, Run, CleanRun, SyncLease, WellFormed;
    var t := Run(s, factory, steps);
    RunOk(s, factory, steps);
    SyncedForm(t.db, t.chain, head, id, acceptable);
    assert ContractIs(t.db, id, t.db.leases[id].contract.value);
    SyncFromAgreement(t.db, t.chain, head, id, acceptable, BaseOf(t.bases, id));
  }

  // ---------- one lease, whatever happens to the others ----------

  /** The step spares a lease: its own synchronization meets no clash, and nothing recorded for others has the key of
      one of its contract's rows. */
  predicate SparesLease(s: System, factory: Address, id: nat, a: Address, step: Step)
    requires Possible(s, factory, step)
  {
    if step.SyncOne? && step.id == id then Clean(s.db.events, Records(s, factory, step))
    else Spares(s.db.events, Records(s, factory, step), a)
  }

  predicate SparingRun(s: System, factory: Address, id: nat, a: Address, steps: seq<Step>)
    requires PossibleRun(s, factory, steps)
    decreases |steps|
  {
    steps != [] ==>
      SparesLease(s, factory, id, a, steps[0]) && SparingRun(Next(s, factory, steps[0]), factory, id, a, steps[1..])
  }

  lemma SyncOneKeeps(s: System, factory: Address, head: nat, other: nat, acceptable: bool, id: nat, a: Address)
    requires Sound(s, factory) && head < |s.chain|
    requires ContractIs(s.db, id, a) && LeaseOk(s.db, id, a, BaseOf(s.bases, id))
    requires SparesLease(s, factory, id, a, SyncOne(head, other, acceptable))
    ensures var s' := Next(s, factory, SyncOne(head, other, acceptable));
      LeaseOk(s'.db, id, a, BaseOf(s'.bases, id))
  {
    hide LeaseOk, Clean, Spares, CreationBlock, Fetched, WellFormed, SyncLease, BaseAfter;
    if SyncLease(s.db, s.chain, head, other, acceptable).Synced? {
      SyncLeaseHas(s, head, other, acceptable);
      if other == id {
        SyncKeepsLease(s.db, s.chain, head, id, acceptable, BaseOf(s.bases, id));
      } else {
        assert ContractIs(s.db, other, s.db.leases[other].contract.value);
        SyncElsewhere(s, head, other, acceptable, a);
        OthersCheckpoint(s, head, other, acceptable, a);
        LeaseKept(s.db, SyncLease(s.db, s.chain, head, other, acceptable).db, id, a, BaseOf(s.bases, id));
      }
    }
  }

  lemma OthersCheckpoint(s: System, head: nat, other: nat, acceptable: bool, a: Address)
    requires head < |s.chain| && SyncLease(s.db, s.chain, head, other, acceptable).Synced?
    requires s.db.leases[other].contract.value != a
    ensures var db' := SyncLease(s.db, s.chain, head, other, acceptable).db;
      && (a in s.db.checkpoints <==> a in db'.checkpoints)
      && (a in s.db.checkpoints ==> db'.checkpoints[a] == s.db.checkpoints[a])
  {
    hide RecordEvents, CreationBlock, Kept, Fetched;
  }

  lemma SyncAllKeeps(s: System, factory: Address, head: nat, deployment: nat, batch: nat, id: nat, a: Address)
    requires Sound(s, factory) && head < |s.chain| && batch > 0 && a != factory
    requires LeaseOk(s.db, id, a, BaseOf(s.bases, id))
    requires SparesLease(s, factory, id, a, SyncAll(head, deployment, batch))
    ensures LeaseOk(SyncFactory(s.db, s.chain, head, factory, deployment, batch), id, a, BaseOf(s.bases, id))
  {
    hide LeaseOk, LogsBetween, InvalidateAll, RecordFactory, WellFormed, Spares;
    var from := FactoryFrom(s.db, s.chain, head, factory, deployment);
    var kept := FactoryKept(s.db, s.chain, head, factory);
    InvalidatedShowsNone(s.db, id, a, BaseOf(s.bases, id));
    if from <= head {
      var ps := FactoryFetched(s.db, s.chain, head, factory, deployment, batch);
      FetchedAre(s.chain, factory, from, FactoryTo(from, head, batch) + 1);
      InvalidatedSpares(s.db, ps, a);
      FactoryElsewhere(kept.events, kept.leases, ps, factory, a);
      LeaseKept(kept, SyncFactory(s.db, s.chain, head, factory, deployment, batch), id, a, BaseOf(s.bases, id));
    }
  }

  lemma InvalidatedSpares(db: Db, ps: seq<Placed>, a: Address)
    ensures Spares(db.events, ps, a) ==> Spares(InvalidateAll(db).events, ps, a)
  {
  }

  lemma AttachOneKeeps(s: System, factory: Address, other: nat, b: Address, p: Placed, snapshot: Mark, id: nat,
                       a: Address)
    requires CanAttach(s.db, factory, other, b, p) && a != factory && LeaseOk(s.db, id, a, BaseOf(s.bases, id))
    requires Spares(s.db.events, [p], a)
    ensures LeaseOk(Attach(s.db, other, b, p, snapshot), id, a, BaseOf(s.bases, id))
  {
    hide LeaseOk, Spares;
    RecordsElsewhere(s.db.events, Some(other), [p], factory, a);
    hide RecordEvents;
    LeaseKept(s.db, Attach(s.db, other, b, p, snapshot), id, a, BaseOf(s.bases, id));
  }

  lemma StepKeepsLease(s: System, factory: Address, id: nat, a: Address, step: Step)
    requires Sound(s, factory) && ContractIs(s.db, id, a) && LeaseOk(s.db, id, a, BaseOf(s.bases, id))
    requires Possible(s, factory, step) && SparesLease(s, factory, id, a, step)
    ensures ContractIs(Next(s, factory, step).db, id, a)
    ensures LeaseOk(Next(s, factory, step).db, id, a, BaseOf(Next(s, factory, step).bases, id))
  {
    hide LeaseOk, WellFormed, SyncLease, SyncFactory, Attach, Spares, Clean;
    StepContracts(s, factory, step);
    match step
    case Fork(next) =>
    case SyncOne(head, other, acceptable) => SyncOneKeeps(s, factory, head, other, acceptable, id, a);
    case SyncAll(head, deployment, batch) => SyncAllKeeps(s, factory, head, deployment, batch, id, a);
    case AttachOne(other, b, p, snapshot) => AttachOneKeeps(s, factory, other, b, p, snapshot, id, a);
  }

  /** One lease in order stays in order along any run that spares it, whatever clashes with rows of others. */
  lemma {:induction false} SparedLeaseOk(s: System, factory: Address, id: nat, a: Address, steps: seq<Step>)
    requires Sound(s, factory) && ContractIs(s.db, id, a) && LeaseOk(s.db, id, a, BaseOf(s.bases, id))
    requires PossibleRun(s, factory, steps) && SparingRun(s, factory, id, a, steps)
    ensures var t := Run(s, factory, steps);
      ContractIs(t.db, id, a) && LeaseOk(t.db, id, a, BaseOf(t.bases, id))
    decreases |steps|
  {
    hide Sound, Possible, Next, LeaseOk, SparesLease, ContractIs;
    if steps != [] {
      StepSound(s, factory, steps[0]);
      StepKeepsLease(s, factory, id, a, steps[0]);
      SparedLeaseOk(Next(s, factory, steps[0]), factory, id, a, steps[1..]);
    }
  }

  /** Recovery: however wrong a lease's rows have become in any run before, a replay after a reorganization that meets
      no clash puts them in order, and they stay so along any run that spares the lease. */
  lemma LeaseRecovers(s: System, factory: Address, before: seq<Step>, head: nat, id: nat, acceptable: bool,
                      later: seq<Step>)
    requires Sound(s, factory) && PossibleRun(s, factory, before) && head < |Run(s, factory, before).chain|
    requires var t := Run(s, factory, before);
      && SyncLease(t.db, t.chain, head, id, acceptable).Synced?
      && Stale(t.db, t.chain, head, t.db.leases[id].contract.value)
      && Clean(t.db.events, SyncFetched(t, head, id, acceptable))
      && var u := Next(t, factory, SyncOne(head, id, acceptable));
        PossibleRun(u, factory, later) && SparingRun(u, factory, id, t.db.leases[id].contract.value, later)
    ensures var t := Run(s, factory, before);
      var a := t.db.leases[id].contract.value;
      var v := Run(Next(t, factory, SyncOne(head, id, acceptable)), factory, later);
      ContractIs(v.db, id, a) && LeaseOk(v.db, id, a, BaseOf(v.bases, id))
  {
    hide LeaseOk, Run, PossibleRun, SparingRun, Sound, SyncLease, CreationBlock, Clean, Fetched;
    RunSound(s, factory, before);
    var t := Run(s, factory, before);
    SyncLeaseHas(t, head, id, acceptable);
    RestoredNext(t, factory, head, id, acceptable);
    StepSound(t, factory, SyncOne(head, id, acceptable));
    SparedLeaseOk(Next(t, factory, SyncOne(head, id, acceptable)), factory, id, t.db.leases[id].contract.value, later);
  }

  lemma RestoredNext(s: System, factory: Address, head: nat, id: nat, acceptable: bool)
    requires Sound(s, factory) && head < |s.chain| && SyncLease(s.db, s.chain, head, id, acceptable).Synced?
    requires Stale(s.db, s.chain, head, s.db.leases[id].contract.value)
    requires Clean(s.db.events, SyncFetched(s, head, id, acceptable))
    ensures var a := s.db.leases[id].contract.value;
      var u := Next(s, factory, SyncOne(head, id, acceptable));
      ContractIs(u.db, id, a) && LeaseOk(u.db, id, a, BaseOf(u.bases, id))
  {
    hide LeaseOk, SyncLease, CreationBlock, Clean, Fetched, WellFormed;
    SyncLeaseHas(s, head, id, acceptable);
    ReplayRestores(s.db, s.chain, head, id, acceptable);
    StepContracts(s, factory, SyncOne(head, id, acceptable));
  }
}
