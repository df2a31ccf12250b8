/** The indexer's database as an object its synchronizations change in place
    (apps/web/src/server/projections.ts:161-274, apps/worker/src/indexer/loop.ts:8-47). */
module IndexerClass {
  import opened Options
  import opened EscrowTypes
  import P = Projection
  import R = IndexerRuns
  import W = WorkerTasks

  datatype SyncError = NotDeployed | CreationMissing | SnapshotRefused

  /** The synchronization did what is specified; an error rolled everything back. */
  predicate Follows(o: P.SyncOutcome, before: P.Db, after: P.Db, err: Option<SyncError>) {
    match o
    case NotDeployed => err == Some(NotDeployed) && after == before
    case CreationMissing => err == Some(CreationMissing) && after == before
    case SnapshotRefused => err == Some(SnapshotRefused) && after == before
    case Synced(db) => err.None? && after == db
  }

  class Indexer {
    var events: P.Events
    var checkpoints: map<Address, P.Mark>
    var leases: map<nat, P.LeaseRec>
    var tasks: seq<W.Task>

    function Current(): P.Db
      reads this
    {
      P.Db(events, checkpoints, leases, tasks)
    }

    constructor (attachable: map<nat, P.LeaseRec>)
      ensures Current() == P.Db(map[], map[], attachable, [])
    {
      events, checkpoints, leases, tasks := map[], map[], attachable, [];
    }

    /** Insert each event, or update the row that has its key. */
    method RecordEvents(lease: Option<nat>, ps: seq<P.Placed>)
      modifies this`events
      ensures events == P.RecordEvents(old(events), lease, ps)
    {
      var i: nat := 0;
      while i < |ps|
        invariant i <= |ps|
        invariant P.RecordEvents(events, lease, ps[i..]) == P.RecordEvents(old(events), lease, ps)
      {
        var event := ps[i];
        var key := P.KeyOf(event.log);
        if key in events {
          var row := events[key];
          events := events[key := row.(mark := event.mark, canonical := true, escrow := event.log.escrow,
                                       args := event.log.args, lease := if lease.Some? then lease else row.lease)];
        } else {
          events := events[key := P.EventRow(event.mark, event.log.address, lease, event.log.name, event.log.escrow,
                                             event.log.args, true)];
        }
        assert ps[i..][1..] == ps[i + 1..];
        i := i + 1;
      }
    }

    /** Fetch and record the blocks from `start` to `live`; at most one range of blocks is ever needed. */
    method RecordBlocks(chain: P.Chain, id: nat, a: Address, start: nat, live: nat)
      requires live < |chain| && live < start + P.RANGE
      modifies this`events
      ensures events == P.RecordEvents(old(events), Some(id), P.LogsBetween(chain, a, start, live + 1))
    {
      var block := start;
      while block <= live
        invariant block == start || (block == start + P.RANGE && start <= live)
        invariant block == start ==> events == old(events)
        invariant block > start ==>
          events == P.RecordEvents(old(events), Some(id), P.LogsBetween(chain, a, start, live + 1))
        decreases live + 1 - block
      {
        var end := if block + P.RANGE - 1 < live then block + P.RANGE - 1 else live;
        RecordEvents(Some(id), P.LogsBetween(chain, a, block, end + 1));
        block := block + P.RANGE;
      }
    }

    method SyncLease(chain: P.Chain, head: nat, id: nat, acceptable: bool) returns (err: Option<SyncError>)
      requires head < |chain|
      modifies this
      ensures Follows(P.SyncLease(old(Current()), chain, head, id, acceptable), old(Current()), Current(), err)
    {
      hide P.RecordEvents, P.LogsBetween, P.CreationBlock, P.Retract, P.Contains;
      if id !in leases || leases[id].contract.None? { return Some(NotDeployed); }
      var a := leases[id].contract.value;
      var created := P.CreationBlock(events, id);
      if created.None? { return Some(CreationMissing); }
      var savedEvents, savedTasks := events, tasks;
      var start: nat := if a in checkpoints then checkpoints[a].number + 1 else created.value;
      if a in checkpoints && !P.Contains(chain, head, checkpoints[a]) {
        events := P.Retract(events, id, a);
        start := created.value;
        tasks := W.EachInvalidated(tasks, id);
      }
      var live: nat := if start + P.RANGE - 1 < head then start + P.RANGE - 1 else head;
      RecordBlocks(chain, id, a, start, live);
      if !acceptable {
        events, tasks := savedEvents, savedTasks;
        return Some(SnapshotRefused);
      }
      leases := leases[id := leases[id].(snapshot := Some(P.MarkAt(chain, live)))];
      checkpoints := checkpoints[a := P.MarkAt(chain, live)];
      err := None;
    }

    /** The chain-wide invalidation, lease by lease. */
    method InvalidateAll()
      modifies this
      ensures Current() == R.InvalidateAll(old(Current()))
    {
      hide W.Invalidated;
      events := map k | k in events :: events[k].(canonical := false);
      InvalidateTasks();
      leases := map id | id in leases ::
        if leases[id].contract.Some? then leases[id].(snapshot := None) else leases[id];
      checkpoints := map[];
    }

    method InvalidateTasks()
      modifies this`tasks
      ensures tasks == R.InvalidatedTasks(old(tasks), leases)
    {
      hide W.Invalidated;
      var rest := set id | id in leases && leases[id].contract.Some?;
      ghost var all := rest;
      while rest != {}
        invariant rest <= all && |tasks| == |old(tasks)|
        invariant forall i :: 0 <= i < |tasks| ==>
          tasks[i] == if old(tasks[i]).lease in all - rest then W.Invalidated(old(tasks[i]), old(tasks[i]).lease)
                      else old(tasks[i])
        decreases |rest|
      {
        var id :| id in rest;
        ghost var before := tasks;
        tasks := W.EachInvalidated(tasks, id);
        rest := rest - {id};
        forall i | 0 <= i < |tasks|
          ensures tasks[i] == if old(tasks[i]).lease in all - rest then W.Invalidated(old(tasks[i]), old(tasks[i]).lease)
                              else old(tasks[i])
        {
          OnlyItsLease(old(tasks[i]), id);
          OnlyItsLease(before[i], id);
        }
      }
      forall i | 0 <= i < |tasks| ensures tasks[i] == R.InvalidatedTasks(old(tasks), leases)[i] {
        assert old(tasks[i]).lease in all <==> R.Deployed(leases, old(tasks[i]).lease);
      }
    }

    /** Invalidation touches the tasks of its lease only, and keeps them its tasks. */
    static lemma OnlyItsLease(t: W.Task, id: nat)
      ensures W.Invalidated(t, id).lease == t.lease && W.Invalidated(t, t.lease).lease == t.lease
      ensures t.lease != id ==> W.Invalidated(t, id) == t
    {
    }

    method SyncFactory(chain: P.Chain, head: nat, factory: Address, deployment: nat, batch: nat)
      requires head < |chain| && batch > 0
      modifies this
      ensures Current() == R.SyncFactory(old(Current()), chain, head, factory, deployment, batch)
    {
      hide P.LogsBetween, R.RecordFactory, R.InvalidateAll, P.Contains;
      var from: nat := if factory in checkpoints then checkpoints[factory].number + 1 else deployment;
      if factory in checkpoints && !P.Contains(chain, head, checkpoints[factory]) {
        InvalidateAll();
        from := deployment;
      }
      if from > head { return; }
      var to: nat := if from + batch - 1 < head then from + batch - 1 else head;
      RecordFactoryEvents(P.LogsBetween(chain, factory, from, to + 1));
      checkpoints := checkpoints[factory := P.MarkAt(chain, to)];
    }

    /** Record each factory event for the attached lease it created. */
    method RecordFactoryEvents(ps: seq<P.Placed>)
      modifies this`events
      ensures events == R.RecordFactory(old(events), leases, ps)
    {
      hide P.RecordEvents, R.Owner;
      var i: nat := 0;
      while i < |ps|
        invariant i <= |ps|
        invariant R.RecordFactory(events, leases, ps[i..]) == R.RecordFactory(old(events), leases, ps)
      {
        RecordEvents(R.Owner(leases, ps[i].log), [ps[i]]);
        assert ps[i..][1..] == ps[i + 1..];
        i := i + 1;
      }
    }
  }
}
