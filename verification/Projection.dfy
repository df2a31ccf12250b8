/** The event table and cursors that follow a chain which can fork (apps/web/src/server/projections.ts:161-274,
    apps/worker/src/indexer/loop.ts:8-47). */
module Projection {
  import opened Options
  import opened EscrowTypes
  import W = WorkerTasks

  /** Blocks fetched by one synchronization. */
  const RANGE: nat := 1000

  datatype EventName = LeaseCreated | Named(name: nat)

  /** A log as the node returns it; `escrow` is an argument of LeaseCreated, `args` stands for the others. */
  datatype Log = Log(tx: Hash, index: nat, address: Address, name: EventName, escrow: Address, args: nat)

  datatype Block = Block(logs: seq<Log>, salt: nat)

  type Chain = seq<Block>

  /** A block number and hash. The hash is ideal: it determines the chain up to and including the block. */
  datatype Mark = Mark(number: nat, hash: Chain)

  function MarkAt(chain: Chain, n: nat): Mark
    requires n < |chain|
  {
    Mark(n, chain[..n + 1])
  }

  /** `blockHash(number) === hash` on a chain whose confirmed head is `head`. */
  predicate Contains(chain: Chain, head: nat, m: Mark)
    requires head < |chain|
  {
    m.number <= head && chain[..m.number + 1] == m.hash
  }

  datatype EventKey = EventKey(tx: Hash, index: nat)

  function KeyOf(l: Log): EventKey {
    EventKey(l.tx, l.index)
  }

  datatype EventRow = EventRow(
    mark: Mark, address: Address, lease: Option<nat>, name: EventName, escrow: Address, args: nat, canonical: bool)

  type Events = map<EventKey, EventRow>

  datatype LeaseRec = LeaseRec(contract: Option<Address>, snapshot: Option<Mark>)

  datatype Db = Db(events: Events, checkpoints: map<Address, Mark>, leases: map<nat, LeaseRec>, tasks: seq<W.Task>)

  /** A log and the block it is in. */
  datatype Placed = Placed(mark: Mark, log: Log)

  function PlacedIn(logs: seq<Log>, a: Address, m: Mark): seq<Placed> {
    if logs == [] then []
    else PlacedIn(logs[..|logs| - 1], a, m)
         + (if logs[|logs| - 1].address == a then [Placed(m, logs[|logs| - 1])] else [])
  }

  /** The logs of a contract in blocks `from` to `end - 1`, in order. */
  function LogsBetween(chain: Chain, a: Address, from: nat, end: nat): seq<Placed>
    requires end <= |chain|
    decreases end - from
  {
    if from >= end then []
    else LogsBetween(chain, a, from, end - 1) + PlacedIn(chain[end - 1].logs, a, MarkAt(chain, end - 1))
  }

  /** The insert or update of one event. On a key that is there already the event's name and address are kept. */
  function Merged(events: Events, lease: Option<nat>, p: Placed): EventRow {
    var k := KeyOf(p.log);
    if k in events
    then events[k].(mark := p.mark, canonical := true, escrow := p.log.escrow, args := p.log.args,
                    lease := if lease.Some? then lease else events[k].lease)
    else EventRow(p.mark, p.log.address, lease, p.log.name, p.log.escrow, p.log.args, true)
  }

  function RecordEvents(events: Events, lease: Option<nat>, ps: seq<Placed>): Events
    decreases |ps|
  {
    if ps == [] then events
    else RecordEvents(events[KeyOf(ps[0].log) := Merged(events, lease, ps[0])], lease, ps[1..])
  }

  // ---------- one lease ----------

  /** Take back what was recorded for a lease's contract. */
  function Retract(events: Events, id: nat, a: Address): Events {
    map k | k in events ::
      if events[k].lease == Some(id) && events[k].address == a then events[k].(canonical := false) else events[k]
  }

  predicate IsCreation(r: EventRow, id: nat) {
    r.lease == Some(id) && r.name.LeaseCreated? && r.canonical
  }

  function CreationBlocks(events: Events, id: nat): set<nat> {
    set k | k in events && IsCreation(events[k], id) :: events[k].mark.number
  }

  predicate IsLeast(s: set<nat>, m: nat) {
    m in s && forall x :: x in s ==> m <= x
  }

  /** A finite set of numbers has a least one. */
  lemma {:induction false} LeastExists(s: set<nat>) returns (m: nat)
    requires s != {}
    ensures IsLeast(s, m)
    decreases |s|
  {
    var y :| y in s;
    var rest := s - {y};
    if rest == {} {
      m := y;
      forall x | x in s ensures y <= x { assert x !in rest; }
    } else {
      m := LeastExists(rest);
      if y < m { m := y; }
      forall x | x in s ensures m <= x { assert x == y || x in rest; }
    }
  }

  function Least(s: set<nat>): (m: nat)
    requires s != {}
    ensures IsLeast(s, m)
  {
    assert exists m :: IsLeast(s, m) by { var m := LeastExists(s); }
    var m :| IsLeast(s, m);
    m
  }

  /** `MIN(block_number)` over the recorded creation events. */
  function CreationBlock(events: Events, id: nat): Option<nat> {
    if CreationBlocks(events, id) == {} then None else Some(Least(CreationBlocks(events, id)))
  }

  predicate Stale(db: Db, chain: Chain, head: nat, a: Address)
    requires head < |chain|
  {
    a in db.checkpoints && !Contains(chain, head, db.checkpoints[a])
  }

  /** The first block a synchronization fetches. */
  function StartBlock(db: Db, chain: Chain, head: nat, a: Address, created: nat): nat
    requires head < |chain|
  {
    if a in db.checkpoints && !Stale(db, chain, head, a) then db.checkpoints[a].number + 1 else created
  }

  /** The block the synchronization ends at. */
  function TargetBlock(start: nat, head: nat): (t: nat)
    ensures t <= head
  {
    if start + RANGE - 1 < head then start + RANGE - 1 else head
  }

  datatype SyncOutcome = NotDeployed | CreationMissing | SnapshotRefused | Synced(db: Db)

  /** `syncLease` on a chain that stays put meanwhile; `acceptable` tells whether the snapshot passes the checks
      of `saveSnapshot`. Anything but `Synced` rolls everything back. */
  function SyncLease(db: Db, chain: Chain, head: nat, id: nat, acceptable: bool): SyncOutcome
    requires head < |chain|
  {
    if id !in db.leases || db.leases[id].contract.None? then NotDeployed
    else
      var a := db.leases[id].contract.value;
      var created := CreationBlock(db.events, id);
      if created.None? then CreationMissing
      else if !acceptable then SnapshotRefused
      else Synced(Advanced(db, chain, head, id, a, created.value))
  }

  /** The events a synchronization records into, and what it fetches. */
  function Kept(db: Db, chain: Chain, head: nat, id: nat, a: Address): Events
    requires head < |chain|
  {
    if Stale(db, chain, head, a) then Retract(db.events, id, a) else db.events
  }

  function Fetched(db: Db, chain: Chain, head: nat, a: Address, created: nat): seq<Placed>
    requires head < |chain|
  {
    var start := StartBlock(db, chain, head, a, created);
    LogsBetween(chain, a, start, TargetBlock(start, head) + 1)
  }

  function Advanced(db: Db, chain: Chain, head: nat, id: nat, a: Address, created: nat): Db
    requires head < |chain| && id in db.leases
  {
    var target := TargetBlock(StartBlock(db, chain, head, a, created), head);
    Db(RecordEvents(Kept(db, chain, head, id, a), Some(id), Fetched(db, chain, head, a, created)),
       db.checkpoints[a := MarkAt(chain, target)],
       db.leases[id := db.leases[id].(snapshot := Some(MarkAt(chain, target)))],
       if Stale(db, chain, head, a) then W.EachInvalidated(db.tasks, id) else db.tasks)
  }

  // ---------- agreement ----------

  /** A log of the contract in a block from `from` to `end - 1` of the chain. */
  predicate Emitted(chain: Chain, a: Address, from: nat, end: nat, p: Placed) {
    && from <= p.mark.number < end && p.mark.number < |chain|
    && p.mark == MarkAt(chain, p.mark.number) && p.log in chain[p.mark.number].logs && p.log.address == a
  }

  /** The row a log of a lease's contract should have. */
  function RowFor(p: Placed, id: nat): EventRow {
    EventRow(p.mark, p.log.address, Some(id), p.log.name, p.log.escrow, p.log.args, true)
  }

  /** Shown to the users of a lease as what its contract did. */
  predicate Shown(r: EventRow, id: nat, a: Address) {
    r.canonical && r.lease == Some(id) && r.address == a
  }

  /** Every log of the contract in those blocks has its row; a row is a map entry, so it has one. */
  ghost predicate Complete(events: Events, id: nat, a: Address, chain: Chain, from: nat, end: nat) {
    forall p :: Emitted(chain, a, from, end, p) ==> KeyOf(p.log) in events && events[KeyOf(p.log)] == RowFor(p, id)
  }

  /** Every row shown is of a log of the contract in those blocks. */
  ghost predicate Faithful(events: Events, id: nat, a: Address, chain: Chain, from: nat, end: nat) {
    forall k :: k in events && Shown(events[k], id, a) ==>
      exists p :: Emitted(chain, a, from, end, p) && KeyOf(p.log) == k
  }

  ghost predicate Agrees(events: Events, id: nat, a: Address, chain: Chain, from: nat, end: nat) {
    Complete(events, id, a, chain, from, end) && Faithful(events, id, a, chain, from, end)
  }

  /** In one chain a transaction and log index name one log: equal keys are the same log of the same block. */
  predicate UniqueKeys(chain: Chain) {
    forall n, m :: 0 <= n < |chain| && 0 <= m < |chain| ==>
      forall l, l' :: l in chain[n].logs && l' in chain[m].logs && KeyOf(l) == KeyOf(l') ==> n == m && l == l'
  }

  /** A log whose key the table holds under another name or address. */
  predicate Clashes(events: Events, l: Log) {
    KeyOf(l) in events && (events[KeyOf(l)].name != l.name || events[KeyOf(l)].address != l.address)
  }

  predicate Clean(events: Events, ps: seq<Placed>) {
    forall i :: 0 <= i < |ps| ==> !Clashes(events, ps[i].log)
  }

  predicate DistinctPlaced(ps: seq<Placed>) {
    forall i, j :: 0 <= i < j < |ps| ==> KeyOf(ps[i].log) != KeyOf(ps[j].log)
  }

  lemma {:induction false} PlacedInExactly(logs: seq<Log>, a: Address, m: Mark, p: Placed)
    ensures p in PlacedIn(logs, a, m) <==> p.mark == m && p.log in logs && p.log.address == a
  {
    if logs != [] {
      PlacedInExactly(logs[..|logs| - 1], a, m, p);
      assert logs == logs[..|logs| - 1] + [logs[|logs| - 1]];
    }
  }

  lemma {:induction false} LogsBetweenExactly(chain: Chain, a: Address, from: nat, end: nat, p: Placed)
    requires end <= |chain|
    ensures p in LogsBetween(chain, a, from, end) <==> Emitted(chain, a, from, end, p)
    decreases end - from
  {
    if from < end {
      LogsBetweenExactly(chain, a, from, end - 1, p);
      PlacedInExactly(chain[end - 1].logs, a, MarkAt(chain, end - 1), p);
    }
  }

  /** Within a block, equal keys are one log at one place. */
  predicate UniqueInBlock(logs: seq<Log>) {
    forall i, j :: 0 <= i < j < |logs| ==> KeyOf(logs[i]) != KeyOf(logs[j])
  }

  /** No key occurs twice in the chain. */
  predicate WellFormed(chain: Chain) {
    UniqueKeys(chain) && forall n :: 0 <= n < |chain| ==> UniqueInBlock(chain[n].logs)
  }

  lemma {:induction false} PlacedInDistinct(logs: seq<Log>, a: Address, m: Mark)
    requires UniqueInBlock(logs)
    ensures DistinctPlaced(PlacedIn(logs, a, m))
  {
    if logs != [] {
      var front := logs[..|logs| - 1];
      PlacedInDistinct(front, a, m);
      forall i | 0 <= i < |PlacedIn(front, a, m)|
        ensures KeyOf(PlacedIn(front, a, m)[i].log) != KeyOf(logs[|logs| - 1])
      {
        PlacedInExactly(front, a, m, PlacedIn(front, a, m)[i]);
        var j :| 0 <= j < |front| && front[j] == PlacedIn(front, a, m)[i].log;
        assert front[j] == logs[j];
      }
    }
  }

  lemma DistinctTogether(before: seq<Placed>, last: seq<Placed>)
    requires DistinctPlaced(before) && DistinctPlaced(last)
    requires forall i, j :: 0 <= i < |before| && 0 <= j < |last| ==> KeyOf(before[i].log) != KeyOf(last[j].log)
    ensures DistinctPlaced(before + last)
  {
  }

  /** A log of earlier blocks has not the key of one of the next block. */
  lemma EarlierBlock(chain: Chain, a: Address, from: nat, n: nat, i: nat, j: nat)
    requires n < |chain| && WellFormed(chain)
    requires i < |LogsBetween(chain, a, from, n)| && j < |PlacedIn(chain[n].logs, a, MarkAt(chain, n))|
    ensures KeyOf(LogsBetween(chain, a, from, n)[i].log) != KeyOf(PlacedIn(chain[n].logs, a, MarkAt(chain, n))[j].log)
  {
    var p := LogsBetween(chain, a, from, n)[i];
    var q := PlacedIn(chain[n].logs, a, MarkAt(chain, n))[j];
    LogsBetweenExactly(chain, a, from, n, p);
    PlacedInExactly(chain[n].logs, a, MarkAt(chain, n), q);
    hide LogsBetween, PlacedIn;
  }

  lemma {:induction false} LogsBetweenDistinct(chain: Chain, a: Address, from: nat, end: nat)
    requires end <= |chain| && WellFormed(chain)
    ensures DistinctPlaced(LogsBetween(chain, a, from, end))
    decreases end - from
  {
    hide WellFormed, DistinctPlaced, PlacedIn;
    NoneDistinct();
    if from < end {
      LogsBetweenDistinct(chain, a, from, end - 1);
      var before := LogsBetween(chain, a, from, end - 1);
      var last := PlacedIn(chain[end - 1].logs, a, MarkAt(chain, end - 1));
      BlockDistinct(chain, a, end - 1);
      forall i, j | 0 <= i < |before| && 0 <= j < |last| ensures KeyOf(before[i].log) != KeyOf(last[j].log) {
        EarlierBlock(chain, a, from, end - 1, i, j);
      }
      DistinctTogether(before, last);
    }
  }

  lemma NoneDistinct()
    ensures DistinctPlaced([])
  {
  }

  lemma BlockDistinct(chain: Chain, a: Address, n: nat)
    requires n < |chain| && WellFormed(chain)
    ensures DistinctPlaced(PlacedIn(chain[n].logs, a, MarkAt(chain, n)))
  {
    hide DistinctPlaced, UniqueKeys, PlacedIn;
    PlacedInDistinct(chain[n].logs, a, MarkAt(chain, n));
  }

  /** Recording touches exactly the keys of what it records, each once. */
  lemma {:induction false} RecordAt(events: Events, lease: Option<nat>, ps: seq<Placed>, k: EventKey)
    requires DistinctPlaced(ps)
    ensures var after := RecordEvents(events, lease, ps);
      && (forall i :: 0 <= i < |ps| && KeyOf(ps[i].log) == k ==> k in after && after[k] == Merged(events, lease, ps[i]))
      && ((forall i :: 0 <= i < |ps| ==> KeyOf(ps[i].log) != k) ==>
            (k in after <==> k in events) && (k in events ==> after[k] == events[k]))
    decreases |ps|
  {
    if ps != [] {
      var rest := ps[1..];
      var events1 := events[KeyOf(ps[0].log) := Merged(events, lease, ps[0])];
      RecordAt(events1, lease, rest, k);
      var after := RecordEvents(events1, lease, rest);
      forall i | 0 <= i < |ps| && KeyOf(ps[i].log) == k
        ensures k in after && after[k] == Merged(events, lease, ps[i])
      {
        if i == 0 {
          assert forall j :: 0 <= j < |rest| ==> rest[j] == ps[j + 1];
        } else {
          assert rest[i - 1] == ps[i];
        }
      }
      assert forall j :: 0 <= j < |rest| ==> rest[j] == ps[j + 1];
    }
  }
}
