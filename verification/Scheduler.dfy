/** The worker's queries, run a slice at a time in turn (src/QueryScheduler.h). */
module Scheduler {
  import opened Results
  import opened Events
  import opened Filters
  import opened Lookups
  import opened Scans
  import opened Queries

  /** How far a query has come, and what is known of the store. */
  datatype Report = Report(key: SubKey, filters: seq<Filter>, latestEventId: nat, sent: seq<nat>, keep: Table, hist: Table)

  /** A query of the scheduler. `keep` are the events that stay stored while it runs,
      and `hist` all those stored at some time, as far as one knows: the one may shrink
      and the other may grow between two slices. */
  class Query {
    const key: SubKey
    const query: DBQuery
    ghost var keep: Table
    ghost var hist: Table
    var dead: bool

    ghost function GetReport(): (r: Report)
      reads `keep, `hist, query
    {
      Report(key, query.filters, query.latestEventId, query.sent, keep, hist)
    }

    ghost predicate Valid()
      reads `keep, `hist, query, query.scanner
    {
      var q := query;
      q.Inv(keep, hist)
    }

    /** A new query that has sent nothing. */
    ghost predicate StartsWith(key: SubKey, filters: seq<Filter>, latestEventId: nat, keep: Table, hist: Table)
      reads this, query, query.scanner
    {
      var q := query;
      && this.key == key && this.keep == keep && this.hist == hist && !dead
      && q.filters == filters && q.latestEventId == latestEventId && q.sent == [] && Valid()
    }

    /** How many slices on a snapshot can end before the query is through. */
    ghost function Left(snap: Snapshot): (n: int)
      requires forall ix :: ix in snap.indices
      reads query`scanner, query`filterGroupIndex, query.scanner
    {
      query.SlicesLeft(snap)
    }

    /** What the query has sent is the answer to its filters. */
    ghost predicate IsAnswered()
      reads `keep, `hist, query
    {
      Answered(query.filters, query.latestEventId, query.sent, keep, hist)
    }

    constructor (key: SubKey, filters: seq<Filter>, latestEventId: nat, ghost keep: Table, ghost hist: Table)
      requires forall i :: 0 <= i < |filters| ==> Runnable(filters[i])
      ensures fresh(query) && query.scanner == null && StartsWith(key, filters, latestEventId, keep, hist)
    {
      this.key := key;
      this.query := new DBQuery(filters, latestEventId);
      this.keep := keep;
      this.hist := hist;
      dead := false;
    }
  }

  /** Every query is once in the queue, and the live ones are those that can be found. */
  ghost predicate Tied(running: seq<Query>, conns: map<SubKey, Query>, dead: set<Query>) {
    && (forall i, j :: 0 <= i < j < |running| ==> running[i] != running[j])
    && (forall k :: k in conns ==> conns[k] in running && conns[k].key == k && conns[k] !in dead)
    && (forall q :: q in running && q !in dead ==> q.key in conns && conns[q.key] == q)
  }

  lemma TiedMore(running: seq<Query>, conns: map<SubKey, Query>, dead: set<Query>, q: Query)
    requires Tied(running, conns, dead) && q !in running && q !in dead && q.key !in conns
    ensures Tied([q] + running, conns[q.key := q], dead)
  {
  }

  lemma TiedRemoved(running: seq<Query>, conns: map<SubKey, Query>, dead: set<Query>, dead': set<Query>, keys: set<SubKey>)
    requires Tied(running, conns, dead) && forall q :: q in running ==> (q in dead' <==> q in dead || q.key in keys)
    ensures Tied(running, conns - keys, dead')
  {
  }

  /** The front query is dead and dropped, or done and no longer found. */
  lemma TiedDropped(running: seq<Query>, conns: map<SubKey, Query>, dead: set<Query>)
    requires Tied(running, conns, dead) && running != [] && running[0] in dead
    ensures Tied(running[1..], conns, dead)
    ensures Tied(running[1..], conns, dead - {running[0]})
  {
    forall k | k in conns ensures conns[k] in running[1..] {
      var i :| 0 <= i < |running| && running[i] == conns[k];
      assert running[1..][i - 1] == conns[k];
    }
  }

  lemma TiedTurned(running: seq<Query>, conns: map<SubKey, Query>, dead: set<Query>)
    requires Tied(running, conns, dead) && running != []
    ensures Tied(running[1..] + [running[0]], conns, dead)
  {
    var turned := running[1..] + [running[0]];
    forall q | q in running ensures q in turned {
      var i :| 0 <= i < |running| && running[i] == q;
      assert i > 0 ==> turned[i - 1] == q;
    }
  }

  /** One slice of a query. */
  method SliceOf(q: Query, snap: Snapshot, clock: Clock) returns (done: bool)
    requires q.Valid() && SnapshotBetween(snap, q.keep, q.hist)
    modifies q.query, q.query.scanner
    ensures q.Valid()
    ensures q.query.scanner == null || q.query.scanner == old(q.query.scanner) || fresh(q.query.scanner)
    ensures Sends(old(q.query.sent), q.query.sent, snap.events)
    ensures done ==> q.IsAnswered()
    ensures !done ==> clock.Limited? && q.Left(snap) < old(q.Left(snap))
  {
    done := q.query.Process(snap, clock, q.keep, q.hist);
    if done {
      assert q.query.scanner == null;
      QueryAnswers(q.query, q.keep, q.hist);
    }
  }

  /** No two queries of the scheduler run the same query object. */
  ghost predicate Apart(queries: set<Query>) {
    forall q, r :: q in queries && r in queries && q != r ==> q.query != r.query
  }

  ghost predicate AllValid(queries: set<Query>)
    reads queries`keep, queries`hist, (set q | q in queries :: q.query), set q | q in queries :: q.query.scanner
  {
    forall q :: q in queries ==> q.Valid()
  }

  /** A slice of one query leaves the others as they are. */
  method SliceAmong(q: Query, snap: Snapshot, clock: Clock, ghost queries: set<Query>) returns (done: bool)
    requires q in queries && Apart(queries) && AllValid(queries) && SnapshotBetween(snap, q.keep, q.hist)
    modifies q.query, q.query.scanner
    ensures AllValid(queries)
    ensures q.query.scanner == null || q.query.scanner == old(q.query.scanner) || fresh(q.query.scanner)
    ensures Sends(old(q.query.sent), q.query.sent, snap.events)
    ensures done ==> q.IsAnswered()
    ensures !done ==> clock.Limited? && q.Left(snap) < old(q.Left(snap))
  {
    assert forall r :: r in queries && r != q ==> r.query != q.query;
    done := SliceOf(q, snap, clock);
    forall r | r in queries && r != q ensures r.Valid() { assert old(r.Valid()); }
  }

  /** Everything that running the queries may change. */
  ghost function Objects(queries: seq<Query>): (r: set<object>)
    reads set q | q in queries :: q.query
  {
    (set q | q in queries :: q as object) + (set q | q in queries :: q.query as object)
      + set q | q in queries && q.query.scanner != null :: q.query.scanner as object
  }

  lemma FewerObjects(queries: seq<Query>, fewer: seq<Query>)
    requires forall q :: q in fewer ==> q in queries
    ensures Objects(fewer) <= Objects(queries)
  {
  }

  lemma OneMoreWorks(queries: set<Query>, q: Query)
    requires Apart(queries) && AllValid(queries) && q.Valid() && forall r :: r in queries ==> r.query != q.query
    ensures Apart(queries + {q}) && AllValid(queries + {q})
  {
  }

  lemma FewerWork(queries: set<Query>, fewer: seq<Query>)
    requires Apart(queries) && AllValid(queries) && forall q :: q in fewer ==> q in queries
    ensures Apart(set q | q in fewer) && AllValid(set q | q in fewer)
  {
  }

  /** The queue and the queries that can be found. */
  datatype Lists = Lists(running: seq<Query>, conns: map<SubKey, Query>)

  /** What a turn does to them. */
  ghost predicate Turned(before: Lists, after: Lists, wasDead: bool, complete: Option<Query>)
    requires before.running != []
  {
    var q, rest := before.running[0], before.running[1..];
    && after.running == (if wasDead || complete.Some? then rest else rest + [q])
    && after.conns == (if complete.Some? then before.conns - {q.key} else before.conns)
    && (complete.Some? ==> complete.value == q && !wasDead)
  }

  class QueryScheduler {
    const maxSubsPerConnection: nat
    var conns: map<SubKey, Query>
    var running: seq<Query>

    ghost function Dead(): (r: set<Query>)
      reads `running, running`dead
    {
      set q | q in running && q.dead
    }

    ghost function Queries(): (r: set<Query>)
      reads `running
    {
      set q | q in running
    }

    ghost function Footprint(): (r: set<object>)
      reads `running, set q | q in running :: q.query
    {
      Objects(running)
    }

    /** The queries can all go on, and none gets in another's way. */
    ghost predicate Working()
      reads `running, running`keep, running`hist, (set q | q in running :: q.query), set q | q in running :: q.query.scanner
    {
      var queries := Queries();
      Apart(queries) && AllValid(queries)
    }

    ghost predicate Linked()
      reads `conns, `running, running`dead
    {
      var dead := Dead();
      Tied(running, conns, dead)
    }

    constructor (maxSubsPerConnection: nat)
      ensures Linked() && Working() && conns == map[] && running == [] && this.maxSubsPerConnection == maxSubsPerConnection
    {
      this.maxSubsPerConnection := maxSubsPerConnection;
      conns := map[];
      running := [];
    }

    /** Whether a query is dead, and whether it can be found, is all the same to it. */
    twostate lemma StillWorking()
      requires running == old(running)
      requires forall q :: q in running ==> unchanged(q`keep, q`hist, q.query) && (q.query.scanner != null ==> unchanged(q.query.scanner))
      ensures old(Working()) ==> Working()
      ensures Footprint() == old(Footprint())
    {
      if old(Working()) {
        forall q | q in running ensures q.Valid() { assert old(q.Valid()); }
      }
    }

    /** removeSub: the query dies, but stays in the queue until its turn. */
    method RemoveSub(key: SubKey)
      requires Linked()
      modifies `conns, (if key in conns then {conns[key]} else {})`dead
      ensures Linked() && conns == old(conns) - {key}
      ensures old(Working()) ==> Working()
      ensures Footprint() == old(Footprint())
      ensures forall q :: q in running ==> (q.dead <==> old(q.dead) || q.key == key)
      ensures forall q :: q in running ==> q.GetReport() == old(q.GetReport())
    {
      if key !in conns {
        assert conns - {key} == conns;
        return;
      }
      ghost var dead := Dead();
      conns[key].dead := true;
      TiedRemoved(running, conns, dead, Dead(), {key});
      conns := conns - {key};
      StillWorking();
    }

    /** closeConn. */
    method CloseConn(connId: nat)
      requires Linked()
      modifies `conns, conns.Values`dead
      ensures Linked() && conns == old(conns) - OfConn(old(conns).Keys, connId)
      ensures old(Working()) ==> Working()
      ensures forall q :: q in running ==> (q.dead <==> old(q.dead) || q.key.connId == connId)
      ensures forall q :: q in running ==> q.GetReport() == old(q.GetReport())
    {
      var keys := OfConn(conns.Keys, connId);
      ghost var dead := Dead();
      Kill(keys);
      TiedRemoved(running, conns, dead, Dead(), keys);
      conns := conns - keys;
      StillWorking();
    }

    /** Marks queries as dead. */
    method Kill(keys: set<SubKey>)
      requires Linked() && keys <= conns.Keys
      modifies conns.Values`dead
      ensures forall q: Query :: q in running ==> (q.dead <==> old(q.dead) || q.key in keys)
    {
      var left := keys;
      while left != {}
        invariant left <= keys
        invariant forall q: Query :: q in running ==> (q.dead <==> old(q.dead) || (q.key in keys && q.key !in left))
        decreases |left|
      {
        var k :| k in left;
        conns[k].dead := true;
        left := left - {k};
      }
    }

    /** addSub: a new query goes to the front of the queue, in place of a live one of
        that name; a connection with too many queries is refused. */
    method AddSub(key: SubKey, filters: seq<Filter>, latestEventId: nat, ghost keep: Table, ghost hist: Table) returns (ok: bool)
      requires Linked() && Working() && forall i :: 0 <= i < |filters| ==> Runnable(filters[i])
      modifies `conns, `running, (if key in conns then {conns[key]} else {})`dead
      ensures Linked() && Working()
      ensures ok <==> |OfConn(old(conns).Keys - {key}, key.connId)| < maxSubsPerConnection
      ensures !ok ==> running == old(running) && conns == old(conns) - {key}
      ensures ok ==> |running| > 0 && fresh(running[0]) && fresh(running[0].query) && running[1..] == old(running)
      ensures ok ==> conns == (old(conns) - {key})[key := running[0]]
      ensures ok ==> running[0].StartsWith(key, filters, latestEventId, keep, hist)
      ensures forall q :: q in old(running) ==> q.GetReport() == old(q.GetReport())
    {
      RemoveSub(key);
      if |OfConn(conns.Keys, key.connId)| >= maxSubsPerConnection { return false; }
      Admit(key, filters, latestEventId, keep, hist);
      return true;
    }

    /** A new query under a name that is free. */
    method Admit(key: SubKey, filters: seq<Filter>, latestEventId: nat, ghost keep: Table, ghost hist: Table)
      requires Linked() && Working() && key !in conns && forall i :: 0 <= i < |filters| ==> Runnable(filters[i])
      modifies `conns, `running
      ensures Linked() && Working()
      ensures |running| > 0 && fresh(running[0]) && fresh(running[0].query) && running[1..] == old(running)
      ensures conns == old(conns)[key := running[0]]
      ensures running[0].StartsWith(key, filters, latestEventId, keep, hist)
    {
      var q := new Query(key, filters, latestEventId, keep, hist);
      Start(q);
    }

    /** A query goes to the front of the queue. */
    method Start(q: Query)
      requires Linked() && q.key !in conns && q !in running && !q.dead
      requires Working() && q.Valid() && forall r :: r in running ==> r.query != q.query
      modifies `conns, `running
      ensures Working()
      ensures Linked() && conns == old(conns)[q.key := q] && running == [q] + old(running)
    {
      ghost var dead := Dead();
      TiedMore(running, conns, dead, q);
      ghost var queries := Queries();
      OneMoreWorks(queries, q);
      conns := conns[q.key := q];
      running := [q] + running;
      assert Dead() == dead;
      assert Queries() == queries + {q};
    }

    /** process: one slice of the query at the front. A complete query leaves the
        scheduler; a dead one is dropped; any other goes to the back of the queue. */
    method Process(snap: Snapshot, clock: Clock) returns (complete: Option<Query>)
      requires Linked() && Working()
      requires running != [] && !running[0].dead ==> SnapshotBetween(snap, running[0].keep, running[0].hist)
      modifies `conns, `running, (if running == [] then {} else {running[0]})`dead
      modifies if running == [] then {} else {running[0].query, running[0].query.scanner}
      ensures Linked() && Working()
      ensures old(running) == [] ==> running == [] && conns == old(conns) && complete.None?
      ensures old(running) != [] ==> Turned(old(Lists(running, conns)), Lists(running, conns), old(running[0].dead), complete)
      ensures old(running) != [] && !old(running[0].dead) ==>
        var q := old(running)[0];
        && Sends(old(running[0].query.sent), q.query.sent, snap.events)
        && (complete.None? ==> !q.dead && clock.Limited? && q.Left(snap) < old(running[0].Left(snap)))
      ensures complete.Some? ==> complete.value.IsAnswered()
      ensures fresh(Footprint() - old(Footprint()))
    {
      if running == [] { return None; }
      if running[0].dead {
        Drop();
        return None;
      }
      var q := running[0];
      var done := ProcessFront(q, snap, clock);
      complete := if done then Some(q) else None;
    }

    method ProcessFront(q: Query, snap: Snapshot, clock: Clock) returns (done: bool)
      requires Linked() && Working() && running != [] && q == running[0] && !q.dead && SnapshotBetween(snap, q.keep, q.hist)
      modifies `conns, `running, q`dead, q.query, q.query.scanner
      ensures Linked() && Working()
      ensures Sends(old(q.query.sent), q.query.sent, snap.events)
      ensures Turned(old(Lists(running, conns)), Lists(running, conns), false, if done then Some(q) else None)
      ensures !done ==> !q.dead && clock.Limited? && q.Left(snap) < old(q.Left(snap))
      ensures done ==> q.IsAnswered()
      ensures fresh(Footprint() - old(Footprint()))
    {
      done := SliceFront(q, snap, clock);
      MoveOn(q, done);
    }

    /** The front query has had its slice. */
    method MoveOn(q: Query, done: bool)
      requires Linked() && running != [] && q == running[0] && !q.dead
      modifies `conns, `running, q`dead
      ensures Linked() && Turned(old(Lists(running, conns)), Lists(running, conns), false, if done then Some(q) else None)
      ensures old(Working()) ==> Working()
      ensures old(q.IsAnswered()) ==> q.IsAnswered()
      ensures !done ==> !q.dead
      ensures Footprint() <= old(Footprint())
    {
      if done { Finish(q); } else { Turn(); }
    }

    /** A slice of the front query. */
    method SliceFront(q: Query, snap: Snapshot, clock: Clock) returns (done: bool)
      requires Working() && running != [] && q == running[0] && SnapshotBetween(snap, q.keep, q.hist)
      modifies q.query, q.query.scanner
      ensures Working()
      ensures Sends(old(q.query.sent), q.query.sent, snap.events)
      ensures done ==> q.IsAnswered()
      ensures !done ==> clock.Limited? && q.Left(snap) < old(q.Left(snap))
      ensures fresh(Footprint() - old(Footprint()))
    {
      assert forall r :: r in running ==> r in Queries();
      assert q in Queries();
      done := SliceAmong(q, snap, clock, Queries());
      NothingNew();
    }

    twostate lemma NothingNew()
      requires running == old(running)
      requires forall q :: q in running ==> q.query.scanner == null || q.query.scanner == old(q.query.scanner) || fresh(q.query.scanner)
      ensures fresh(Footprint() - old(Footprint()))
    {
      forall q | q in running && q.query.scanner != null && !fresh(q.query.scanner)
        ensures q.query.scanner as object in old(Footprint())
      {
        assert old(q.query.scanner) != null;
      }
    }

    /** Some of the queries, in another order. */
    method Requeue(queries: seq<Query>)
      requires forall q :: q in queries ==> q in running
      modifies `running
      ensures running == queries
      ensures old(Working()) ==> Working()
      ensures Footprint() <= old(Footprint())
    {
      if Working() { FewerWork(Queries(), queries); }
      FewerObjects(running, queries);
      running := queries;
    }

    /** The front query is dead. */
    method Drop()
      requires Linked() && running != [] && running[0].dead
      modifies `running
      ensures Linked() && running == old(running)[1..]
      ensures old(Working()) ==> Working()
      ensures Footprint() <= old(Footprint())
    {
      TiedDropped(running, conns, Dead());
      ghost var dead := Dead() - {running[0]};
      Requeue(running[1..]);
      assert Dead() == dead;
    }

    /** The front query is done. */
    method Finish(q: Query)
      requires Linked() && running != [] && q == running[0] && !q.dead
      modifies `running, `conns, q`dead
      ensures Linked() && running == old(running)[1..] && conns == old(conns) - {q.key}
      ensures old(Working()) ==> Working()
      ensures old(q.IsAnswered()) ==> q.IsAnswered()
      ensures Footprint() <= old(Footprint())
    {
      RemoveSub(q.key);
      Drop();
    }

    /** The front query goes to the back. */
    method Turn()
      requires Linked() && running != []
      modifies `running
      ensures Linked() && running == old(running)[1..] + [old(running)[0]]
      ensures old(Working()) ==> Working()
      ensures Footprint() <= old(Footprint())
    {
      TiedTurned(running, conns, Dead());
      ghost var dead := Dead();
      Requeue(running[1..] + [running[0]]);
      assert Dead() == dead;
    }
  }

  // ---------------------------------------------------------------------------
  // Many queries

  /** Each query that was live is answered or still in the queue. */
  ghost predicate Outcome(queries: set<Query>, all: set<Query>, live: set<Query>, done: set<Query>)
    reads all, set q | q in all :: q.query
  {
    && queries <= all && done <= all && done !! queries
    && (forall q :: q in done ==> q.IsAnswered())
    && (forall q :: q in live ==> q in done || (q in queries && !q.dead))
  }

  ghost predicate Progress(scheduler: QueryScheduler, all: set<Query>, live: set<Query>, done: set<Query>)
    reads scheduler, scheduler.running, all, (set q | q in all :: q.query)
    reads (set q | q in scheduler.running :: q.query), set q | q in scheduler.running :: q.query.scanner
  {
    var queries := scheduler.Queries();
    && scheduler.Linked() && scheduler.Working() && Apart(all)
    && Outcome(queries, all, live, done)
  }

  /** What a turn of query `q` does to the outcome, when it leaves the others alone. */
  lemma OutcomeNext(queries: set<Query>, all: set<Query>, live: set<Query>, done: set<Query>, q: Query, stays: bool, complete: bool)
    requires queries <= all && done <= all && done !! queries && q in queries
    requires forall r :: r in done ==> r.IsAnswered()
    requires forall r :: r in live && r != q ==> r in done || (r in queries && !r.dead)
    requires (complete ==> !stays && q.IsAnswered()) && (q in live && !complete ==> stays && !q.dead)
    ensures Outcome(if stays then queries else queries - {q}, all, live, if complete then done + {q} else done)
  {
  }

  lemma TailSet(running: seq<Query>)
    requires running != [] && forall i, j :: 0 <= i < j < |running| ==> running[i] != running[j]
    ensures (set q | q in running[1..]) == (set q | q in running) - {running[0]}
    ensures (set q | q in running[1..] + [running[0]]) == (set q | q in running)
  {
    forall q ensures q in running ==> q == running[0] || q in running[1..] {
      if q in running { var i :| 0 <= i < |running| && running[i] == q; assert i > 0 ==> running[1..][i - 1] == q; }
    }
  }

  /** How many slices the queries of a queue can still take on a snapshot. */
  ghost function Lefts(running: seq<Query>, snap: Snapshot): (r: seq<int>)
    requires forall ix :: ix in snap.indices
    reads (set q | q in running :: q.query), set q | q in running :: q.query.scanner
  {
    seq(|running|, i
      requires 0 <= i < |running|
      reads (set q | q in running :: q.query), set q | q in running :: q.query.scanner
      => running[i].Left(snap))
  }

  /** And how many turns at most: one more for each, to end in. */
  ghost function Turns(lefts: seq<int>): (n: int) {
    if lefts == [] then 0 else lefts[0] + 1 + Turns(lefts[1..])
  }

  lemma {:induction false} TurnsAppend(lefts: seq<int>, left: int)
    ensures Turns(lefts + [left]) == Turns(lefts) + left + 1
  {
    if lefts == [] {
      assert lefts + [left] == [left];
    } else {
      TurnsAppend(lefts[1..], left);
      assert (lefts + [left])[1..] == lefts[1..] + [left];
    }
  }

  /** The front has gone to the back with fewer slices left, or has gone for good. */
  lemma FewerTurns(lefts: seq<int>, lefts': seq<int>)
    requires |lefts| > 0 && lefts[0] >= 0 && |lefts| - 1 <= |lefts'| <= |lefts|
    requires forall i :: 0 <= i < |lefts| - 1 ==> lefts'[i] == lefts[i + 1]
    requires |lefts'| == |lefts| ==> lefts'[|lefts| - 1] < lefts[0]
    ensures Turns(lefts') < Turns(lefts)
  {
    if |lefts'| == |lefts| {
      assert lefts' == lefts[1..] + [lefts'[|lefts| - 1]];
      TurnsAppend(lefts[1..], lefts'[|lefts| - 1]);
    } else {
      assert lefts' == lefts[1..];
    }
  }

  lemma {:induction false} TurnsEach(lefts: seq<int>)
    requires forall i :: 0 <= i < |lefts| ==> lefts[i] >= 0
    ensures Turns(lefts) >= |lefts|
  {
    if lefts != [] { TurnsEach(lefts[1..]); }
  }

  ghost function TurnsLeft(scheduler: QueryScheduler, snap: Snapshot): (n: int)
    requires forall ix :: ix in snap.indices
    reads scheduler`running, (set q | q in scheduler.running :: q.query), set q | q in scheduler.running :: q.query.scanner
  {
    Turns(Lefts(scheduler.running, snap))
  }

  lemma TurnsAreLeft(scheduler: QueryScheduler, snap: Snapshot)
    requires scheduler.Working() && forall ix :: ix in snap.indices
    ensures TurnsLeft(scheduler, snap) >= |scheduler.running|
    ensures forall q :: q in scheduler.running ==> q.Left(snap) >= 0
  {
    QueueIsValid(scheduler);
    var running := scheduler.running;
    forall i | 0 <= i < |running| ensures running[i].Left(snap) >= 0 {
      assert running[i] in running;
      SlicesAreLeft(running[i].query, snap, running[i].keep, running[i].hist);
    }
    TurnsEach(Lefts(running, snap));
  }

  lemma QueueIsValid(scheduler: QueryScheduler)
    requires scheduler.Working()
    ensures forall q :: q in scheduler.running ==> q.Valid()
  {
    assert forall q :: q in scheduler.running ==> q in scheduler.Queries();
  }

  /** A query has objects of its own. */
  ghost predicate Aside(q: Query, rest: seq<Query>)
    reads q.query`scanner, set r | r in rest :: r.query`scanner
  {
    forall r :: r in rest ==> r != q && r.query != q.query && (r.query.scanner == null || r.query.scanner != q.query.scanner)
  }

  lemma FrontAside(scheduler: QueryScheduler, q: Query, rest: seq<Query>)
    requires scheduler.Linked() && scheduler.Working() && scheduler.running != [] && q == scheduler.running[0] && rest == scheduler.running[1..]
    ensures Aside(q, rest)
  {
    QueueIsValid(scheduler);
    forall r | r in rest ensures r.query != q.query && (r.query.scanner == null || r.query.scanner != q.query.scanner) {
      assert r in scheduler.Queries() && q in scheduler.Queries() && r != q && r.Valid() && q.Valid();
    }
  }

  /** A turn takes the front query out of the queue or puts it last, and brings it nearer
      to its end, and none of the others farther from theirs. */
  method TurnOnce(scheduler: QueryScheduler, q: Query, rest: seq<Query>, snap: Snapshot, clock: Clock) returns (complete: Option<Query>)
    requires scheduler.Linked() && scheduler.Working() && scheduler.running != [] && q == scheduler.running[0] && rest == scheduler.running[1..]
    requires SnapshotOk(snap) && Aside(q, rest) && (!q.dead ==> SnapshotBetween(snap, q.keep, q.hist))
    modifies scheduler`conns, scheduler`running, q`dead, q.query, q.query.scanner
    ensures scheduler.Linked() && scheduler.Working()
    ensures Turned(old(Lists(scheduler.running, scheduler.conns)), Lists(scheduler.running, scheduler.conns), old(q.dead), complete)
    ensures !old(q.dead) ==> Sends(old(q.query.sent), q.query.sent, snap.events)
    ensures !old(q.dead) && complete.None? ==> !q.dead && clock.Limited? && q.Left(snap) < old(q.Left(snap))
    ensures complete.Some? ==> q.IsAnswered()
    ensures forall i :: 0 <= i < |rest| ==> rest[i].Left(snap) == old(rest[i].Left(snap))
    ensures fresh(scheduler.Footprint() - old(scheduler.Footprint()))
  {
    complete := scheduler.Process(snap, clock);
    forall i | 0 <= i < |rest| ensures rest[i].Left(snap) == old(rest[i].Left(snap)) { assert rest[i] in rest; }
  }

  /** With every turn there are fewer to come. */
  method TurnShorter(scheduler: QueryScheduler, q: Query, snap: Snapshot, clock: Clock) returns (complete: Option<Query>)
    requires scheduler.Linked() && scheduler.Working() && scheduler.running != [] && q == scheduler.running[0]
    requires SnapshotOk(snap) && (!q.dead ==> SnapshotBetween(snap, q.keep, q.hist))
    modifies scheduler`conns, scheduler`running, q`dead, q.query, q.query.scanner
    ensures scheduler.Linked() && scheduler.Working()
    ensures Turned(old(Lists(scheduler.running, scheduler.conns)), Lists(scheduler.running, scheduler.conns), old(q.dead), complete)
    ensures !old(q.dead) ==> Sends(old(q.query.sent), q.query.sent, snap.events)
    ensures !old(q.dead) && complete.None? ==> !q.dead && clock.Limited?
    ensures complete.Some? ==> q.IsAnswered()
    ensures TurnsLeft(scheduler, snap) < old(TurnsLeft(scheduler, snap))
    ensures fresh(scheduler.Footprint() - old(scheduler.Footprint()))
  {
    var rest := scheduler.running[1..];
    FrontAside(scheduler, q, rest);
    TurnsAreLeft(scheduler, snap);
    ghost var lefts := Lefts(scheduler.running, snap);
    complete := TurnOnce(scheduler, q, rest, snap, clock);
    ghost var lefts' := Lefts(scheduler.running, snap);
    forall i | 0 <= i < |rest| ensures lefts'[i] == lefts[i + 1] {
      assert scheduler.running[i] == rest[i];
      assert lefts[i + 1] == old(rest[i].Left(snap)) == rest[i].Left(snap);
    }
    FewerTurns(lefts, lefts');
  }

  /** And it leaves the other queries as they are. */
  method TurnApart(scheduler: QueryScheduler, q: Query, snap: Snapshot, clock: Clock, ghost all: set<Query>) returns (complete: Option<Query>)
    requires scheduler.Linked() && scheduler.Working() && scheduler.running != [] && q == scheduler.running[0]
    requires SnapshotBetween(snap, q.keep, q.hist)
    requires forall r :: r in all && r != q ==> r.query != q.query
    modifies scheduler`conns, scheduler`running, q`dead, q.query, q.query.scanner
    ensures scheduler.Linked() && scheduler.Working()
    ensures TurnsLeft(scheduler, snap) < old(TurnsLeft(scheduler, snap))
    ensures fresh(scheduler.Footprint() - old(scheduler.Footprint()))
    ensures Turned(old(Lists(scheduler.running, scheduler.conns)), Lists(scheduler.running, scheduler.conns), old(q.dead), complete)
    ensures !old(q.dead) && complete.None? ==> !q.dead
    ensures complete.Some? ==> q.IsAnswered()
    ensures forall r :: r in all && r != q ==> r.dead == old(r.dead) && (old(r.IsAnswered()) ==> r.IsAnswered())
  {
    complete := TurnShorter(scheduler, q, snap, clock);
    forall r | r in all && r != q ensures r.dead == old(r.dead) && (old(r.IsAnswered()) ==> r.IsAnswered()) {}
  }

  /** One turn of the scheduler. */
  method TakeTurn(scheduler: QueryScheduler, q: Query, snap: Snapshot, clock: Clock,
                  ghost all: set<Query>, ghost live: set<Query>, ghost done: set<Query>)
      returns (ghost done': set<Query>)
    requires Progress(scheduler, all, live, done) && scheduler.running != [] && q == scheduler.running[0]
    requires SnapshotOk(snap) && forall q :: q in all ==> SnapshotBetween(snap, q.keep, q.hist)
    modifies scheduler`conns, scheduler`running, q`dead, q.query, q.query.scanner
    ensures Progress(scheduler, all, live, done')
    ensures TurnsLeft(scheduler, snap) < old(TurnsLeft(scheduler, snap))
    ensures scheduler.Queries() <= old(scheduler.Queries())
    ensures fresh(scheduler.Footprint() - old(scheduler.Footprint()))
  {
    ghost var queries, wasDead := scheduler.Queries(), q.dead;
    assert q in queries;
    TailSet(scheduler.running);
    var complete := TurnApart(scheduler, q, snap, clock, all);
    OutcomeNext(queries, all, live, done, q, complete.None? && !wasDead, complete.Some?);
    done' := if complete.Some? then done + {q} else done;
  }

  /** Turn after turn: one for each slice, on the snapshot of its time, and then as many
      as it takes on the last one, whatever the clock says in each of them. */
  method RunOn(scheduler: QueryScheduler, slices: seq<Slice>, last: Snapshot, clocks: nat -> Clock, n: nat,
               ghost all: set<Query>, ghost live: set<Query>, ghost done: set<Query>)
      returns (turns: nat, ghost done': set<Query>)
    requires Progress(scheduler, all, live, done)
    requires forall q, k :: q in all && 0 <= k < |slices| ==> SnapshotBetween(slices[k].snap, q.keep, q.hist)
    requires SnapshotOk(last) && forall q :: q in all ==> SnapshotBetween(last, q.keep, q.hist)
    modifies scheduler`conns, scheduler`running, scheduler.Footprint()
    ensures Progress(scheduler, all, live, done') && scheduler.running == []
    ensures slices == [] ==> turns <= old(TurnsLeft(scheduler, last))
    decreases |slices|, TurnsLeft(scheduler, last)
  {
    turns, done' := 0, done;
    TurnsAreLeft(scheduler, last);
    if scheduler.running == [] { return; }
    assert scheduler.running[0] in scheduler.Queries();
    if slices != [] {
      done' := TakeTurn(scheduler, scheduler.running[0], slices[0].snap, slices[0].clock, all, live, done');
      turns, done' := RunOn(scheduler, slices[1..], last, clocks, n, all, live, done');
    } else {
      done' := TakeTurn(scheduler, scheduler.running[0], last, clocks(n), all, live, done');
      TurnsAreLeft(scheduler, last);
      turns, done' := RunOn(scheduler, slices, last, clocks, n + 1, all, live, done');
    }
    turns := turns + 1;
  }

  /** Slices of all queries in turn, and then the rest: every query that was live is
      answered, whatever ran between its slices and however short they were. */
  method RunAll(scheduler: QueryScheduler, slices: seq<Slice>, last: Snapshot, clocks: nat -> Clock) returns (turns: nat)
    requires scheduler.Linked() && scheduler.Working() && SnapshotOk(last)
    requires forall q, k :: q in scheduler.running && 0 <= k < |slices| ==> SnapshotBetween(slices[k].snap, q.keep, q.hist)
    requires forall q :: q in scheduler.running ==> SnapshotBetween(last, q.keep, q.hist)
    modifies scheduler`conns, scheduler`running, scheduler.Footprint()
    ensures scheduler.running == []
    ensures forall q :: q in old(scheduler.running) && !old(q.dead) ==> q.IsAnswered()
    ensures slices == [] ==> turns <= old(TurnsLeft(scheduler, last))
  {
    ghost var all := scheduler.Queries();
    ghost var live := set q | q in all && !q.dead;
    ghost var done;
    turns, done := RunOn(scheduler, slices, last, clocks, 0, all, live, {});
  }
}
