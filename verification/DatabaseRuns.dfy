/** The database over whole runs of writes, deletions and negentropy commands, each
    writer with a filter cache of its own (src/events_write.cpp, src/events.h,
    src/apps/dbutils/cmd_negentropy.cpp, src/NegentropyFilterCache.h). */
module DatabaseRuns {
  import opened ByteStrings
  import opened Events
  import opened Filters
  import opened Plans
  import opened Cursors
  import opened Scans
  import opened Store
  import opened Databases
  import opened Writer
  import Negentropy

  /** Writers and the expiry sweep bring a cache, the commands of `strfry negentropy` do
      not know of any. */
  datatype Op =
    | Write(cache: nat, evs: seq<EventToWrite>)
    | Delete(cache: nat, levIds: seq<nat>)
    | Add(f: Filter)
    | Build(treeId: nat)

  /** Rows of all indices of a table. */
  type Indexing = (Table, Index) -> seq<Row>

  ghost predicate Indexes(rows: Indexing) {
    forall events: Table, ix: Index :: IsIndex(rows(events, ix), ix, events)
  }

  /** Which events and texts belong together: say, that the one was parsed from the other. */
  type Relation = (Event, Bytes) -> bool

  predicate OpOk(op: Op, n: nat, belongs: Relation) {
    match op
    case Write(c, evs) => c < n && BatchOk(evs) && forall ev :: ev in evs ==> ev.event.createdAt < TIME_LIMIT && belongs(ev.event, ev.json)
    case Delete(c, _) => c < n
    case Add(f) => WellFormed(f) && AtMostItems(f, SCAN_LIMIT)
    case Build(_) => true
  }

  /** How many levIds the operations can use up. */
  function Size(ops: seq<Op>): (n: nat) {
    if ops == [] then 0
    else (if ops[0].Write? then |ops[0].evs| else 0) + Size(ops[1..])
  }

  /** Times and levIds are in range, and stay so when `room` more events are written. */
  ghost predicate InRange(events: Table, room: nat) {
    MaxLevId(events) + room <= MAX_U64 && forall l :: l in events ==> events[l].createdAt < TIME_LIMIT
  }

  /** The database is in order, and no cache is taken for a current one that is not. */
  ghost predicate AllWell(db: Database, caches: seq<NegentropyFilterCache>)
    reads db, caches
  {
    && db.Valid() && db.FiltersOk()
    && forall c :: c in caches ==> c.Consistent(db.negFilters, db.negentropyModificationCounter)
  }

  /** A tree that has been built holds the matching stored events and nothing else. */
  ghost predicate TreesExact(db: Database)
    reads db
  {
    forall t :: t in db.built ==>
      t in db.trees && t in db.negFilters
      && forall created, id :: TreeKey(created, id) in db.trees[t] <==>
          exists l :: l in db.events && db.events[l].createdAt == created && db.events[l].id == id && Matches(db.negFilters[t], db.events[l])
  }

  /** Behind every stored event there is a zero byte and the text that belongs to it. */
  ghost predicate Honest(db: Database, belongs: Relation)
    reads db`events, db`payloads
  {
    forall l :: l in db.events ==>
      l in db.payloads && |db.payloads[l]| > 0 && db.payloads[l][0] == 0 && belongs(db.events[l], db.payloads[l][1..])
  }

  lemma {:induction false} GrowsAtMost(db: Table, es: seq<Event>, room: nat)
    requires InRange(db, |es| + room) && forall e :: e in es ==> e.createdAt < TIME_LIMIT
    ensures InRange(Apply(db, es), room)
    decreases |es|
  {
    if es != [] {
      var n := |es| - 1;
      GrowsAtMost(db, es[..n], room + 1);
      OneMoreInRange(Apply(db, es[..n]), es[n], room);
    }
  }

  lemma OneMoreInRange(db: Table, e: Event, room: nat)
    requires InRange(db, room + 1) && e.createdAt < TIME_LIMIT
    ensures InRange(WriteOne(db, e), room)
  {
    MaxLevIdGrows(db, e);
    if StatusOf(db, e) == Written { WriteAdds(db, e); }
  }

  lemma FewerInRange(db: Table, gone: set<nat>, room: nat)
    requires InRange(db, room)
    ensures InRange(db - gone, room)
  {
  }

  lemma RangeIsTableOk(db: Table, room: nat)
    requires StoreInv(db) && InRange(db, room)
    ensures TableOk(db)
  {
  }

  lemma ResultsOk(evs: seq<EventToWrite>, r: seq<EventToWrite>, belongs: Relation)
    requires BatchOk(evs) && |r| == |evs| && Processed(evs, r)
    requires forall ev :: ev in evs ==> ev.event.createdAt < TIME_LIMIT && belongs(ev.event, ev.json)
    ensures forall i :: 0 <= i < |r| ==> r[i].event.createdAt < TIME_LIMIT && belongs(r[i].event, r[i].json)
    ensures forall i, j :: 0 <= i < j < |r| && r[i].event.id == r[j].event.id ==> r[i].event == r[j].event
  {
    var sorted: seq<EventToWrite> :| SortedBatch(sorted) && multiset(sorted) == multiset(evs) && SameInputs(sorted, r);
    SortedBatchOk(evs, sorted);
    forall i | 0 <= i < |r| ensures r[i].event.createdAt < TIME_LIMIT && belongs(r[i].event, r[i].json) {
      assert sorted[i] in multiset(sorted);
      assert sorted[i] in evs;
    }
  }

  method RunWrite(db: Database, caches: seq<NegentropyFilterCache>, c: nat, evs: seq<EventToWrite>, belongs: Relation, ghost room: nat)
    requires AllWell(db, caches) && c < |caches| && BatchOk(evs) && InRange(db.events, |evs| + room) && Honest(db, belongs)
    requires forall ev :: ev in evs ==> ev.event.createdAt < TIME_LIMIT && belongs(ev.event, ev.json)
    modifies db, caches
    ensures AllWell(db, caches) && InRange(db.events, room) && old(db.built) == db.built && Honest(db, belongs)
  {
    assert caches[c] in caches;
    ghost var events := db.events;
    var r := WriteEvents(db, caches[c], evs);
    ResultsOk(evs, r, belongs);
    GrowsAtMost(events, EventsOf(r), room);
    forall l | l in db.events
      ensures l in db.payloads && |db.payloads[l]| > 0 && db.payloads[l][0] == 0 && belongs(db.events[l], db.payloads[l][1..])
    {
      NewIsReported(events, r, l);
    }
  }

  method RunDelete(db: Database, caches: seq<NegentropyFilterCache>, c: nat, levIds: seq<nat>, belongs: Relation, ghost room: nat)
    requires AllWell(db, caches) && c < |caches| && InRange(db.events, room) && Honest(db, belongs)
    modifies db, caches
    ensures AllWell(db, caches) && InRange(db.events, room) && old(db.built) == db.built && Honest(db, belongs)
  {
    assert caches[c] in caches;
    var _ := DeleteEvents(db, caches[c], levIds);
    FewerInRange(old(db.events), Named(levIds), room);
  }

  method RunAdd(db: Database, caches: seq<NegentropyFilterCache>, f: Filter)
    requires AllWell(db, caches) && WellFormed(f) && AtMostItems(f, SCAN_LIMIT)
    modifies db
    ensures AllWell(db, caches) && db.events == old(db.events) && db.payloads == old(db.payloads) && old(db.built) == db.built
  {
    var _ := Negentropy.AddTree(db, f);
  }

  /** A build reads the database as it is. */
  method RunBuild(db: Database, caches: seq<NegentropyFilterCache>, treeId: nat, rows: Indexing)
    requires AllWell(db, caches) && Indexes(rows) && TableOk(db.events)
    modifies db
    ensures AllWell(db, caches) && db.events == old(db.events) && db.payloads == old(db.payloads) && old(db.built) <= db.built
  {
    var snap := Snapshot(db.events, map ix: Index | true :: rows(db.events, ix));
    var _ := Negentropy.BuildTree(db, treeId, snap);
  }

  method RunOne(db: Database, caches: seq<NegentropyFilterCache>, op: Op, rows: Indexing, belongs: Relation, ghost room: nat)
    requires AllWell(db, caches) && OpOk(op, |caches|, belongs) && Indexes(rows) && InRange(db.events, Size([op]) + room) && Honest(db, belongs)
    modifies db, caches
    ensures AllWell(db, caches) && InRange(db.events, room) && old(db.built) <= db.built && Honest(db, belongs)
  {
    match op {
      case Write(c, evs) => RunWrite(db, caches, c, evs, belongs, room);
      case Delete(c, levIds) => RunDelete(db, caches, c, levIds, belongs, room);
      case Add(f) => RunAdd(db, caches, f);
      case Build(treeId) =>
        RangeIsTableOk(db.events, room);
        RunBuild(db, caches, treeId, rows);
    }
  }

  /** Whatever is run, by whichever writer: the database stays valid, no cache is ever
      taken for current wrongly, every tree once built is exact, and every stored event
      has the text that it came with. */
  method RunAll(db: Database, caches: seq<NegentropyFilterCache>, ops: seq<Op>, rows: Indexing, belongs: Relation)
    requires AllWell(db, caches) && Indexes(rows) && InRange(db.events, Size(ops)) && Honest(db, belongs)
    requires forall op :: op in ops ==> OpOk(op, |caches|, belongs)
    modifies db, caches
    ensures AllWell(db, caches) && TreesExact(db) && old(db.built) <= db.built && Honest(db, belongs)
  {
    for i := 0 to |ops|
      invariant AllWell(db, caches) && InRange(db.events, Size(ops[i..])) && old(db.built) <= db.built && Honest(db, belongs)
    {
      assert ops[i..][0] == ops[i] && ops[i..][1..] == ops[i + 1..] && ops[i] in ops;
      RunOne(db, caches, ops[i], rows, belongs, Size(ops[i + 1..]));
    }
  }
}
