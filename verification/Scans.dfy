/** The state of a scan and what each of its steps keeps (DBScan, src/DBQuery.h).

    A scan may be paused and resumed on a later snapshot of the database. Two
    tables frame everything said about it: `hist`, the events that were ever
    stored (a levId never names two events), and `keep`, events that are in every
    snapshot the scan sees. On a single snapshot both are that snapshot. */
module Scans {
  import opened Results
  import opened Events
  import opened Filters
  import opened Plans
  import opened Cursors

  /** A read transaction: the event table and its indices. */
  datatype Snapshot = Snapshot(events: Table, indices: map<Index, seq<Row>>)

  predicate TableOk(db: Table) {
    forall l :: l in db ==> 1 <= l <= MAX_U64 && db[l].createdAt < TIME_LIMIT
  }

  ghost predicate SnapshotOk(s: Snapshot) {
    && TableOk(s.events)
    && forall ix :: ix in s.indices && IsIndex(s.indices[ix], ix, s.events)
  }

  function FreshCursor(search: Major): (c: Cursor)
    ensures CursorOk(c)
  {
    Cursor(Some(Row(search, MAX_U64, MAX_U64)), search, 0)
  }

  /** The state of a scan: its cursors, of which `n` have been read, the queue, and
      the events that have left the queue. */
  datatype View = View(cursors: seq<Cursor>, queue: seq<Candidate>, n: nat, visited: set<nat>)

  /** A queued candidate stands for an index row of an event of its cursor's key. */
  ghost predicate Sourced(plan: Plan, hist: Table, n: nat, c: Candidate) {
    && c.scanIndex < n <= |plan.searches|
    && c.levId in hist
    && hist[c.levId].createdAt == c.created
    && HasMajor(plan.index, hist[c.levId], plan.searches[c.scanIndex])
  }

  /** The scan has to come across event `l` through cursor `j`. */
  ghost predicate Due(f: Filter, plan: Plan, n: nat, keep: Table, l: nat, j: nat) {
    && l in keep
    && j < n <= |plan.searches|
    && HasMajor(plan.index, keep[l], plan.searches[j])
    && InScanRange(f, keep[l].createdAt)
  }

  ghost predicate Shaped(plan: Plan, v: View, hist: Table) {
    && |v.cursors| == |plan.searches| && v.n <= |v.cursors|
    && (forall j :: 0 <= j < |v.cursors| ==> CursorOk(v.cursors[j]) && v.cursors[j].search == plan.searches[j])
    && (forall j :: v.n <= j < |v.cursors| ==> v.cursors[j] == FreshCursor(plan.searches[j]))
    && (forall c :: c in v.queue ==> Sourced(plan, hist, v.n, c))
    && (forall l :: l in v.visited ==> l in hist)
    && (v.n < |v.cursors| ==> v.visited == {})
  }

  /** `outstanding` counts a cursor's queued candidates, and an active cursor always
      has one. */
  ghost predicate Accounted(v: View) {
    && v.n <= |v.cursors|
    && forall j :: 0 <= j < v.n ==>
        v.cursors[j].outstanding == Count(v.queue, j) && (v.cursors[j].resume.Some? ==> v.cursors[j].outstanding > 0)
  }

  /** Visited before queued, queued before pending, all newest first. */
  ghost predicate Ordered(v: View, hist: Table)
    requires forall c :: c in v.queue ==> c.scanIndex < |v.cursors|
    requires forall l :: l in v.visited ==> l in hist
  {
    && (v.n == |v.cursors| ==> SortedQueue(v.queue))
    && (forall c, created, levId :: c in v.queue && Pending(v.cursors[c.scanIndex], created, levId) ==>
          NewerAt(c.created, c.levId, created, levId))
    && (forall l, c :: l in v.visited && c in v.queue ==> !NewerAt(c.created, c.levId, hist[l].createdAt, l))
  }

  ghost predicate Tracked(v: View, created: nat, l: nat, j: nat)
    requires j < |v.cursors|
  {
    l in v.visited || Candidate(l, created, j) in v.queue || Pending(v.cursors[j], created, l)
  }

  ghost predicate NothingLost(f: Filter, plan: Plan, v: View, keep: Table)
    requires |v.cursors| == |plan.searches|
  {
    forall l: nat, j: nat :: Due(f, plan, v.n, keep, l, j) ==> Tracked(v, keep[l].createdAt, l, j)
  }

  /** What every step of a scan keeps. */
  ghost predicate ScanInv(f: Filter, plan: Plan, v: View, keep: Table, hist: Table) {
    match v
    case View(_, _, _, _) => Shaped(plan, v, hist) && Accounted(v) && Ordered(v, hist) && NothingLost(f, plan, v, keep)
  }

  /** The rows a cursor reads from a snapshot are sourced. */
  lemma RowsSourced(f: Filter, plan: Plan, rows: seq<Row>, db: Table, hist: Table, c: Cursor, j: nat, c': Cursor, out: seq<Candidate>, n: nat)
    requires IsIndex(rows, plan.index, db) && Within(db, hist)
    requires j < n <= |plan.searches| && c.search == plan.searches[j] && Moved(rows, f, c, j, c', out)
    ensures forall o :: o in out ==> Sourced(plan, hist, n, o)
  {
    forall o | o in out ensures Sourced(plan, hist, n, o) {
      assert IsRow(plan.index, db, Row(c.search, o.created, o.levId));
    }
  }

  /** A row that was pending for cursor `j` is not lost by reading the cursor. */
  lemma ReadKeepsTrack(f: Filter, plan: Plan, rows: seq<Row>, db: Table, keep: Table, c: Cursor, j: nat, c': Cursor, out: seq<Candidate>, n: nat, l: nat)
    requires IsIndex(rows, plan.index, db) && Within(keep, db)
    requires Due(f, plan, n, keep, l, j) && c.search == plan.searches[j] && Moved(rows, f, c, j, c', out)
    requires Pending(c, keep[l].createdAt, l)
    ensures Candidate(l, keep[l].createdAt, j) in out || Pending(c', keep[l].createdAt, l)
  {
    var r := Row(plan.searches[j], keep[l].createdAt, l);
    assert IsRow(plan.index, db, r) && r in rows;
  }

  /** The view after cursor `n` has been read for the first time. */
  function Initialised(v: View, c': Cursor, queue': seq<Candidate>): (w: View)
    requires v.n < |v.cursors|
  {
    View(v.cursors[v.n := c'], queue', v.n + 1, v.visited)
  }

  /** The view after the front candidate has been taken off the queue and its
      cursor replaced. */
  function Popped(v: View, c': Cursor, queue': seq<Candidate>): (w: View)
    requires v.queue != [] && v.queue[0].scanIndex < |v.cursors|
  {
    View(v.cursors[v.queue[0].scanIndex := c'], queue', v.n, v.visited + {v.queue[0].levId})
  }

  /** `all` is the queue `q` with the candidates `out` of cursor `j` added. */
  ghost predicate Merged(q: seq<Candidate>, out: seq<Candidate>, j: nat, all: seq<Candidate>) {
    && (forall c :: c in all <==> c in q || c in out)
    && (forall c :: c in out ==> c.scanIndex == j)
    && (forall i: nat :: Count(all, i) == Count(q, i) + Count(out, i))
  }

  lemma InitShaped(plan: Plan, v: View, hist: Table, c': Cursor, out: seq<Candidate>, queue': seq<Candidate>)
    requires Shaped(plan, v, hist) && v.n < |v.cursors| && CursorOk(c') && c'.search == plan.searches[v.n]
    requires forall o :: o in out ==> Sourced(plan, hist, v.n + 1, o)
    requires Merged(v.queue, out, v.n, queue')
    ensures Shaped(plan, Initialised(v, c', queue'), hist)
  {
    assert forall c :: c in v.queue ==> Sourced(plan, hist, v.n, c);
  }

  lemma InitAccounted(plan: Plan, v: View, hist: Table, c': Cursor, out: seq<Candidate>, queue': seq<Candidate>)
    requires Shaped(plan, v, hist) && Accounted(v) && v.n < |v.cursors|
    requires c'.outstanding == |out| && (c'.resume.Some? ==> out != [])
    requires Merged(v.queue, out, v.n, queue')
    ensures Accounted(Initialised(v, c', queue'))
  {
    forall j | 0 <= j < v.n + 1 ensures v.cursors[v.n := c'][j].outstanding == Count(queue', j) {
      CountUniform(out, v.n, j);
      assert Count(v.queue, v.n) == 0;
    }
  }

  lemma InitOrdered(plan: Plan, v: View, hist: Table, c': Cursor, out: seq<Candidate>, queue': seq<Candidate>)
    requires Shaped(plan, v, hist) && Ordered(v, hist) && v.n < |v.cursors|
    requires Merged(v.queue, out, v.n, queue') && (v.n + 1 == |v.cursors| ==> SortedQueue(queue'))
    requires forall o, created, levId :: o in out && Pending(c', created, levId) ==> NewerAt(o.created, o.levId, created, levId)
    ensures Shaped(plan, Initialised(v, c', queue'), hist) ==> Ordered(Initialised(v, c', queue'), hist)
  {
    assert forall c :: c in v.queue ==> Sourced(plan, hist, v.n, c);
  }

  /** Reading the next cursor for the first time. */
  lemma InitStep(f: Filter, plan: Plan, v: View, keep: Table, hist: Table, rows: seq<Row>, db: Table, c': Cursor, out: seq<Candidate>, queue': seq<Candidate>)
    requires ScanInv(f, plan, v, keep, hist) && v.n < |v.cursors|
    requires IsIndex(rows, plan.index, db) && Within(keep, db) && Within(db, hist) && TableOk(db)
    requires Moved(rows, f, v.cursors[v.n], v.n, c', out) && c'.outstanding == |out| && (c'.resume.Some? ==> out != [])
    requires Merged(v.queue, out, v.n, queue') && (v.n + 1 == |v.cursors| ==> SortedQueue(queue'))
    ensures ScanInv(f, plan, Initialised(v, c', queue'), keep, hist)
  {
    var w := Initialised(v, c', queue');
    RowsSourced(f, plan, rows, db, hist, v.cursors[v.n], v.n, c', out, v.n + 1);
    InitShaped(plan, v, hist, c', out, queue');
    InitAccounted(plan, v, hist, c', out, queue');
    InitOrdered(plan, v, hist, c', out, queue');
    forall l: nat, j: nat | Due(f, plan, w.n, keep, l, j) ensures Tracked(w, keep[l].createdAt, l, j) {
      if j < v.n {
        assert Due(f, plan, v.n, keep, l, j) && Tracked(v, keep[l].createdAt, l, j);
      } else {
        ReadKeepsTrack(f, plan, rows, db, keep, v.cursors[v.n], v.n, c', out, w.n, l);
      }
    }
  }

  /** Decrementing `outstanding` moves no cursor. */
  lemma PopOrdered(v: View, hist: Table, c': Cursor)
    requires v.queue != [] && v.n == |v.cursors|
    requires forall c :: c in v.queue ==> c.scanIndex < |v.cursors|
    requires forall l :: l in v.visited ==> l in hist
    requires v.queue[0] in v.queue && v.queue[0].levId in hist && hist[v.queue[0].levId].createdAt == v.queue[0].created
    requires c' == v.cursors[v.queue[0].scanIndex].(outstanding := c'.outstanding)
    requires Ordered(v, hist)
    ensures Ordered(Popped(v, c', v.queue[1..]), hist)
  {
    var ev := v.queue[0];
    var w := Popped(v, c', v.queue[1..]);
    forall x, created, levId | x in w.queue && Pending(w.cursors[x.scanIndex], created, levId)
      ensures NewerAt(x.created, x.levId, created, levId)
    {
      assert x in v.queue && Pending(v.cursors[x.scanIndex], created, levId);
    }
    forall l, x | l in w.visited && x in w.queue ensures !NewerAt(x.created, x.levId, hist[l].createdAt, l) {
      if l == ev.levId {
        var k :| 0 <= k < |w.queue| && w.queue[k] == x;
        assert !Newer(v.queue[k + 1], v.queue[0]);
      } else {
        assert l in v.visited && x in v.queue;
      }
    }
  }

  lemma PopTracked(f: Filter, plan: Plan, v: View, keep: Table, c': Cursor)
    requires |v.cursors| == |plan.searches| && v.queue != [] && v.queue[0].scanIndex < |v.cursors|
    requires c' == v.cursors[v.queue[0].scanIndex].(outstanding := c'.outstanding)
    requires NothingLost(f, plan, v, keep)
    ensures NothingLost(f, plan, Popped(v, c', v.queue[1..]), keep)
  {
    var w := Popped(v, c', v.queue[1..]);
    forall l: nat, j: nat | Due(f, plan, w.n, keep, l, j) ensures Tracked(w, keep[l].createdAt, l, j) {
      assert Tracked(v, keep[l].createdAt, l, j);
    }
  }

  lemma PopAccounted(plan: Plan, v: View, hist: Table, c': Cursor)
    requires Shaped(plan, v, hist) && Accounted(v) && v.n == |v.cursors| && v.queue != [] && v.queue[0].scanIndex < v.n
    requires Count(v.queue[1..], v.queue[0].scanIndex) > 0
    requires c' == v.cursors[v.queue[0].scanIndex].(outstanding := v.cursors[v.queue[0].scanIndex].outstanding - 1)
    ensures Shaped(plan, Popped(v, c', v.queue[1..]), hist) && Accounted(Popped(v, c', v.queue[1..]))
  {
    assert v.queue[0] in v.queue && forall x :: x in v.queue[1..] ==> x in v.queue;
  }

  /** Taking the front candidate off the queue while its cursor has more queued. */
  lemma PopStep(f: Filter, plan: Plan, v: View, keep: Table, hist: Table)
    requires ScanInv(f, plan, v, keep, hist) && v.n == |v.cursors| && v.queue != []
    requires Sourced(plan, hist, v.n, v.queue[0]) && Count(v.queue[1..], v.queue[0].scanIndex) > 0
    ensures v.cursors[v.queue[0].scanIndex].outstanding > 0
    ensures
      var c := v.cursors[v.queue[0].scanIndex];
      ScanInv(f, plan, Popped(v, c.(outstanding := c.outstanding - 1), v.queue[1..]), keep, hist)
  {
    var c := v.cursors[v.queue[0].scanIndex];
    var c' := c.(outstanding := c.outstanding - 1);
    assert v.queue[0] in v.queue;
    PopAccounted(plan, v, hist, c');
    PopOrdered(v, hist, c');
    PopTracked(f, plan, v, keep, c');
  }

  /** Taking the last queued candidate of its cursor and reading the cursor again. */
  lemma RefillStep(f: Filter, plan: Plan, v: View, keep: Table, hist: Table, rows: seq<Row>, db: Table, c': Cursor, out: seq<Candidate>, queue': seq<Candidate>)
    requires ScanInv(f, plan, v, keep, hist) && v.n == |v.cursors| && v.queue != []
    requires Sourced(plan, hist, v.n, v.queue[0]) && Count(v.queue[1..], v.queue[0].scanIndex) == 0
    requires IsIndex(rows, plan.index, db) && Within(keep, db) && Within(db, hist)
    requires Moved(rows, f, v.cursors[v.queue[0].scanIndex], v.queue[0].scanIndex, c', out)
    requires c'.outstanding == |out| && (c'.resume.Some? ==> out != [])
    requires SortedQueue(queue') && Merged(v.queue[1..], out, v.queue[0].scanIndex, queue')
    ensures ScanInv(f, plan, Popped(v, c', queue'), keep, hist)
  {
    var ev := v.queue[0];
    var j := ev.scanIndex;
    var w := Popped(v, c', queue');
    assert ev in v.queue;
    RowsSourced(f, plan, rows, db, hist, v.cursors[j], j, c', out, v.n);
    RefillShaped(plan, v, hist, c', out, queue');
    RefillAccounted(v, c', out, queue');
    RefillOrdered(v, hist, c', out, queue');
    forall l: nat, i: nat | Due(f, plan, w.n, keep, l, i) ensures Tracked(w, keep[l].createdAt, l, i) {
      assert Tracked(v, keep[l].createdAt, l, i);
      if i == j && Pending(v.cursors[j], keep[l].createdAt, l) {
        ReadKeepsTrack(f, plan, rows, db, keep, v.cursors[j], j, c', out, v.n, l);
      }
    }
  }

  lemma RefillShaped(plan: Plan, v: View, hist: Table, c': Cursor, out: seq<Candidate>, queue': seq<Candidate>)
    requires Shaped(plan, v, hist) && v.n == |v.cursors| && v.queue != [] && Sourced(plan, hist, v.n, v.queue[0])
    requires CursorOk(c') && c'.search == plan.searches[v.queue[0].scanIndex]
    requires forall o :: o in out ==> Sourced(plan, hist, v.n, o)
    requires Merged(v.queue[1..], out, v.queue[0].scanIndex, queue')
    ensures Shaped(plan, Popped(v, c', queue'), hist)
  {
    assert forall x :: x in v.queue[1..] ==> x in v.queue;
  }

  lemma RefillAccounted(v: View, c': Cursor, out: seq<Candidate>, queue': seq<Candidate>)
    requires Accounted(v) && v.n == |v.cursors| && v.queue != [] && v.queue[0].scanIndex < v.n
    requires Count(v.queue[1..], v.queue[0].scanIndex) == 0
    requires c'.outstanding == |out| && (c'.resume.Some? ==> out != [])
    requires Merged(v.queue[1..], out, v.queue[0].scanIndex, queue')
    ensures Accounted(Popped(v, c', queue'))
  {
    var j := v.queue[0].scanIndex;
    var w := Popped(v, c', queue');
    forall i | 0 <= i < w.n ensures w.cursors[i].outstanding == Count(queue', i) { CountUniform(out, j, i); }
  }

  /** Everything a refill brings in is older than the candidate just taken. */
  lemma RefillOrdered(v: View, hist: Table, c': Cursor, out: seq<Candidate>, queue': seq<Candidate>)
    requires v.queue != [] && v.n == |v.cursors|
    requires forall c :: c in v.queue ==> c.scanIndex < |v.cursors|
    requires forall l :: l in v.visited ==> l in hist
    requires v.queue[0].levId in hist && hist[v.queue[0].levId].createdAt == v.queue[0].created
    requires Ordered(v, hist) && SortedQueue(queue') && Merged(v.queue[1..], out, v.queue[0].scanIndex, queue')
    requires Count(v.queue[1..], v.queue[0].scanIndex) == 0 && v.queue[0] in v.queue
    requires forall o :: o in out ==> Pending(v.cursors[v.queue[0].scanIndex], o.created, o.levId)
    requires forall o, created, levId :: o in out && Pending(c', created, levId) ==> NewerAt(o.created, o.levId, created, levId)
    ensures Ordered(Popped(v, c', queue'), hist)
  {
    var ev := v.queue[0];
    var w := Popped(v, c', queue');
    assert forall c :: c in v.queue[1..] ==> c in v.queue && c.scanIndex != ev.scanIndex;
    forall l, c | l in w.visited && c in w.queue ensures !NewerAt(c.created, c.levId, hist[l].createdAt, l) {
      if c in out {
        assert NewerAt(ev.created, ev.levId, c.created, c.levId);
        assert l in v.visited ==> !NewerAt(ev.created, ev.levId, hist[l].createdAt, l);
      } else {
        var k :| 0 <= k < |v.queue[1..]| && v.queue[1..][k] == c;
        assert !Newer(v.queue[k + 1], v.queue[0]);
      }
    }
  }

  /** Nothing that is still to come is newer than the front of the queue. */
  lemma FrontIsNewest(f: Filter, plan: Plan, v: View, keep: Table, hist: Table, l: nat, j: nat)
    requires ScanInv(f, plan, v, keep, hist) && v.n == |v.cursors| && v.queue != []
    requires Due(f, plan, v.n, keep, l, j) && l !in v.visited && l != v.queue[0].levId
    ensures NewerAt(v.queue[0].created, v.queue[0].levId, keep[l].createdAt, l)
  {
    var cand := Candidate(l, keep[l].createdAt, j);
    assert Tracked(v, keep[l].createdAt, l, j);
    if cand in v.queue {
      var k :| 0 <= k < |v.queue| && v.queue[k] == cand;
      assert k > 0 && !Newer(v.queue[k], v.queue[0]);
    } else {
      assert Count(v.queue, j) > 0;
      var c :| c in v.queue && c.scanIndex == j;
      assert NewerAt(c.created, c.levId, keep[l].createdAt, l);
      var k :| 0 <= k < |v.queue| && v.queue[k] == c;
      assert k == 0 || !Newer(v.queue[k], v.queue[0]);
    }
  }

  /** An empty queue means that everything due has been visited. */
  lemma EmptyQueueIsDone(f: Filter, plan: Plan, v: View, keep: Table, hist: Table, l: nat, j: nat)
    requires ScanInv(f, plan, v, keep, hist) && v.n == |v.cursors| && v.queue == []
    requires Due(f, plan, v.n, keep, l, j)
    ensures l in v.visited
  {
    assert Tracked(v, keep[l].createdAt, l, j);
    assert Count(v.queue, j) == 0;
  }

  /** A scan does not mind if less has to be found, or more has been stored. */
  lemma ScanForward(f: Filter, plan: Plan, v: View, keep: Table, hist: Table, keep': Table, hist': Table)
    requires ScanInv(f, plan, v, keep, hist) && Within(keep', keep) && Within(hist, hist')
    ensures ScanInv(f, plan, v, keep', hist')
  {
    forall l: nat, j: nat | Due(f, plan, v.n, keep', l, j) ensures Tracked(v, keep'[l].createdAt, l, j) {
      assert Due(f, plan, v.n, keep, l, j);
    }
  }
}
