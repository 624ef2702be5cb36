/** Queries over the stored events (DBScan::scan and DBQuery, src/DBQuery.h), as
    the scheduler runs them: in time slices, each on its own snapshot. */
module Queries {
  import opened Results
  import opened Events
  import opened Sequences
  import opened Filters
  import opened Plans
  import opened Cursors
  import opened Scans

  ghost function RankSum(rows: seq<Row>, cursors: seq<Cursor>): (n: nat) {
    if cursors == [] then 0 else CursorRank(rows, cursors[0]) + RankSum(rows, cursors[1..])
  }

  lemma {:induction false} RankSumUpdate(rows: seq<Row>, cursors: seq<Cursor>, j: nat, c: Cursor)
    requires j < |cursors|
    ensures RankSum(rows, cursors[j := c]) == RankSum(rows, cursors) - CursorRank(rows, cursors[j]) + CursorRank(rows, c)
    decreases |cursors|
  {
    if j > 0 {
      assert cursors[j := c][1..] == cursors[1..][j - 1 := c];
      RankSumUpdate(rows, cursors[1..], j - 1, c);
    } else {
      assert cursors[j := c][1..] == cursors[1..];
    }
  }

  lemma {:induction false} RankSumAtMost(rows: seq<Row>, cursors: seq<Cursor>)
    ensures RankSum(rows, cursors) <= |cursors| * |rows|
    decreases |cursors|
  {
    if cursors != [] {
      RankSumAtMost(rows, cursors[1..]);
      assert |cursors| * |rows| == |cursors[1..]| * |rows| + |rows|;
    }
  }

  /** How often the loop of a scan can still go round on the rows of an index, but for
      the time it finds nothing left. */
  ghost function RoundsLeft(rows: seq<Row>, v: View): (n: int) {
    |v.cursors| - v.n + RankSum(rows, v.cursors) + |v.queue|
  }

  /** The time budget of a slice: whether it is used up when the query looks at the clock
      for the n-th time. Without a limit it never is. */
  datatype Clock = Unlimited | Limited(late: nat -> bool)

  predicate Late(clock: Clock, n: nat) {
    clock.Limited? && clock.late(n)
  }

  /** The query looks at the clock when it has done that much work since the last time. */
  const CHECK_INTERVAL := 2000

  /** The most that one round can add to that, besides itself: a look at an event, and a
      full load of candidates. */
  const ROUND_WORK := 510

  function Clamp(n: nat, low: nat, high: nat): (r: nat)
    requires low <= high
    ensures low <= r <= high
    ensures low <= n <= high ==> r == n
  {
    if n < low then low else if n > high then high else n
  }

  /** The filters a query may be asked to run. */
  predicate Runnable(f: Filter) {
    WellFormed(f) && !f.neverMatch && AtMostItems(f, SCAN_LIMIT)
  }

  class DBScan {
    const f: Filter
    const plan: Plan
    const initialScanDepth: nat
    const refillScanDepth: nat
    var cursors: seq<Cursor>
    var queue: seq<Candidate>
    var nextInitIndex: nat
    var approxWork: nat
    ghost var visited: set<nat>
    /** The one query that uses the scan. */
    ghost const owner: DBQuery

    ghost predicate Ready() {
      && Complete(plan, f) && Sound(plan, f)
      && plan.searches != [] && |plan.searches| <= SCAN_LIMIT
      && 0 < initialScanDepth <= 50 && 0 < refillScanDepth <= 500
    }

    ghost function Seen(): View
      reads `cursors, `queue, `nextInitIndex, `visited
    {
      View(cursors, queue, nextInitIndex, visited)
    }

    ghost predicate Inv(keep: Table, hist: Table)
      reads `cursors, `queue, `nextInitIndex, `visited
    {
      Ready() && ScanInv(f, plan, Seen(), keep, hist)
    }

    constructor (f: Filter, ghost owner: DBQuery)
      requires Runnable(f)
      ensures this.f == f && visited == {} && this.owner == owner
      ensures forall keep, hist :: Inv(keep, hist)
      ensures approxWork == 0 && nextInitIndex == 0 && queue == [] && |cursors| <= SCAN_LIMIT
    {
      var p := ChoosePlan(f);
      this.f := f;
      this.owner := owner;
      plan := p;
      cursors := seq(|p.searches|, i requires 0 <= i < |p.searches| => FreshCursor(p.searches[i]));
      queue := [];
      nextInitIndex := 0;
      visited := {};
      approxWork := 0;
      var depth := Clamp(f.limit / |p.searches|, 5, 50);
      initialScanDepth := depth;
      refillScanDepth := 10 * depth;
    }

    /** The first read of the next cursor, and the sort after the last one. Returns the
        work that it took. */
    method InitNext(snap: Snapshot, ghost keep: Table, ghost hist: Table) returns (work: nat)
      requires Inv(keep, hist) && nextInitIndex < |cursors|
      requires SnapshotOk(snap) && Within(keep, snap.events) && Within(snap.events, hist)
      modifies this
      ensures Inv(keep, hist)
      ensures nextInitIndex == old(nextInitIndex) + 1 && |cursors| == old(|cursors|) && visited == old(visited)
      ensures RoundsLeft(snap.indices[plan.index], Seen()) < old(RoundsLeft(snap.indices[plan.index], Seen()))
      ensures work <= initialScanDepth
    {
      var n := nextInitIndex;
      var c, all := ReadNext(f, plan, initialScanDepth, cursors[n], queue, n, n + 1 == |cursors|, snap, Seen(), keep, hist);
      RankSumUpdate(snap.indices[plan.index], cursors, n, c);
      work := |all| - |queue|;
      cursors := cursors[n := c];
      queue := all;
      nextInitIndex := n + 1;
    }

    /** Removes the front candidate, and refills its cursor once none of the
        cursor's candidates is left in the queue. */
    method Advance(snap: Snapshot, ghost keep: Table, ghost hist: Table) returns (work: nat)
      requires Inv(keep, hist) && nextInitIndex == |cursors| && queue != []
      requires SnapshotOk(snap) && Within(keep, snap.events) && Within(snap.events, hist)
      modifies this
      ensures Inv(keep, hist)
      ensures Stepped(snap.indices[plan.index], old(Seen()), Seen()) && work <= refillScanDepth
    {
      var ev := queue[0];
      var c, rest := TakeFront(f, plan, refillScanDepth, cursors, queue, snap, Seen(), keep, hist);
      PoppedStepped(snap.indices[plan.index], Seen(), c, rest);
      work := |rest| + 1 - |queue|;
      cursors := cursors[ev.scanIndex := c];
      queue := rest;
      visited := visited + {ev.levId};
    }
  }

  /** What a cursor has read joins the queue, which is sorted once all have read. */
  method Enqueue(queue: seq<Candidate>, out: seq<Candidate>, j: nat, last: bool) returns (all: seq<Candidate>)
    requires forall c :: c in out ==> c.scanIndex == j
    ensures Merged(queue, out, j, all) && (last ==> SortedQueue(all)) && |all| == |queue| + |out|
  {
    all := queue + out;
    forall i: nat ensures Count(all, i) == Count(queue, i) + Count(out, i) { CountConcat(queue, out, i); }
    if last { all := SortQueue(all); }
  }

  /** The first read of cursor `n`: the cursor and the queue afterwards. */
  method ReadNext(f: Filter, plan: Plan, depth: nat, c: Cursor, queue: seq<Candidate>, n: nat, last: bool, snap: Snapshot,
                  ghost v: View, ghost keep: Table, ghost hist: Table)
      returns (c': Cursor, all: seq<Candidate>)
    requires ScanInv(f, plan, v, keep, hist) && v.n == n < |v.cursors| <= SCAN_LIMIT && depth > 0
    requires v.cursors[n] == c && v.queue == queue && last == (n + 1 == |v.cursors|)
    requires SnapshotOk(snap) && Within(keep, snap.events) && Within(snap.events, hist)
    ensures ScanInv(f, plan, Initialised(v, c', all), keep, hist)
    ensures CursorRank(snap.indices[plan.index], c') + |all| <= CursorRank(snap.indices[plan.index], c) + |queue|
    ensures |queue| <= |all| <= |queue| + depth
  {
    var rows := snap.indices[plan.index];
    RowsAreInRange(rows, plan.index, snap.events);
    NextIsFresh(f, plan, v, keep, hist);
    ghost var out;
    c', all, out := ReadFirst(rows, f, c, queue, n, depth, last);
    InitStep(f, plan, v, keep, hist, rows, snap.events, c', out, all);
  }

  method ReadFirst(rows: seq<Row>, f: Filter, c: Cursor, queue: seq<Candidate>, n: nat, depth: nat, last: bool)
      returns (c': Cursor, all: seq<Candidate>, ghost out: seq<Candidate>)
    requires SortedRows(rows) && RowsInRange(rows) && CursorOk(c) && c.outstanding == 0 && depth > 0 && n < SCAN_LIMIT
    ensures Moved(rows, f, c, n, c', out) && c'.outstanding == |out| && (c'.resume.Some? ==> out != [])
    ensures Merged(queue, out, n, all) && (last ==> SortedQueue(all)) && |all| == |queue| + |out| && |out| <= depth
  {
    var read;
    c', read := Collect(rows, f, c, n, depth);
    out := read;
    all := Enqueue(queue, read, n, last);
  }

  lemma NextIsFresh(f: Filter, plan: Plan, v: View, keep: Table, hist: Table)
    requires ScanInv(f, plan, v, keep, hist) && v.n < |v.cursors|
    ensures CursorOk(v.cursors[v.n]) && v.cursors[v.n].outstanding == 0
  {
  }

  /** The front candidate's cursor and the queue once it has been dealt with. */
  method TakeFront(f: Filter, plan: Plan, depth: nat, cursors: seq<Cursor>, queue: seq<Candidate>, snap: Snapshot,
                   ghost v: View, ghost keep: Table, ghost hist: Table)
      returns (c: Cursor, rest: seq<Candidate>)
    requires ScanInv(f, plan, v, keep, hist) && v.n == |v.cursors| <= SCAN_LIMIT && depth > 0
    requires v.cursors == cursors && v.queue == queue && queue != []
    requires SnapshotOk(snap) && Within(keep, snap.events) && Within(snap.events, hist)
    ensures queue[0].scanIndex < |cursors|
    ensures ScanInv(f, plan, Popped(v, c, rest), keep, hist)
    ensures Shrinks(snap.indices[plan.index], cursors[queue[0].scanIndex], c, |queue|, |rest|)
    ensures |queue| <= |rest| + 1 <= |queue| + depth
  {
    var j := queue[0].scanIndex;
    FrontCounted(f, plan, v, keep, hist);
    c := cursors[j].(outstanding := cursors[j].outstanding - 1);
    if c.outstanding == 0 {
      c, rest := ReadAgain(f, plan, depth, c, queue, snap, v, keep, hist);
    } else {
      PopStep(f, plan, v, keep, hist);
      rest := queue[1..];
      PopShrinks(snap.indices[plan.index], cursors[j], c, |queue|);
    }
  }

  /** Reads the cursor of the front candidate again and merges what it finds into
      the rest of the queue. */
  method ReadAgain(f: Filter, plan: Plan, depth: nat, c: Cursor, queue: seq<Candidate>, snap: Snapshot,
                   ghost v: View, ghost keep: Table, ghost hist: Table)
      returns (c': Cursor, all: seq<Candidate>)
    requires ScanInv(f, plan, v, keep, hist) && v.n == |v.cursors| <= SCAN_LIMIT && depth > 0
    requires v.queue == queue && queue != []
    requires Sourced(plan, hist, v.n, queue[0]) && Count(queue[1..], queue[0].scanIndex) == 0
    requires c == v.cursors[queue[0].scanIndex].(outstanding := 0)
    requires SnapshotOk(snap) && Within(keep, snap.events) && Within(snap.events, hist)
    ensures ScanInv(f, plan, Popped(v, c', all), keep, hist)
    ensures Shrinks(snap.indices[plan.index], v.cursors[queue[0].scanIndex], c', |queue|, |all|)
    ensures |queue| <= |all| + 1 <= |queue| + depth
  {
    var rows := snap.indices[plan.index];
    RowsAreInRange(rows, plan.index, snap.events);
    RestIsSorted(f, plan, v, keep, hist);
    ghost var out;
    c', all, out := ReadMore(rows, f, v.cursors[queue[0].scanIndex], c, queue[1..], queue[0].scanIndex, depth);
    RefillStep(f, plan, v, keep, hist, rows, snap.events, c', out, all);
  }

  method ReadMore(rows: seq<Row>, f: Filter, ghost c0: Cursor, c: Cursor, queue: seq<Candidate>, j: nat, depth: nat)
      returns (c': Cursor, all: seq<Candidate>, ghost out: seq<Candidate>)
    requires SortedRows(rows) && RowsInRange(rows) && CursorOk(c) && depth > 0 && j < SCAN_LIMIT
    requires c == c0.(outstanding := 0) && SortedQueue(queue)
    ensures Moved(rows, f, c0, j, c', out) && c'.outstanding == |out| && (c'.resume.Some? ==> out != [])
    ensures SortedQueue(all) && Merged(queue, out, j, all) && |all| == |queue| + |out| && |out| <= depth
  {
    var read;
    c', read := Collect(rows, f, c, j, depth);
    out := read;
    Refilled(rows, f, c0, c, j, c', read);
    all := MergeQueues(queue, read);
  }

  lemma RestIsSorted(f: Filter, plan: Plan, v: View, keep: Table, hist: Table)
    requires ScanInv(f, plan, v, keep, hist) && v.n == |v.cursors| && v.queue != [] && Sourced(plan, hist, v.n, v.queue[0])
    ensures SortedQueue(v.queue[1..]) && CursorOk(v.cursors[v.queue[0].scanIndex])
  {
  }

  /** One candidate less is to come, from the queue or from the cursor. */
  ghost predicate Shrinks(rows: seq<Row>, c: Cursor, c': Cursor, length: nat, length': nat) {
    CursorRank(rows, c') + length' < CursorRank(rows, c) + length
  }

  lemma PopShrinks(rows: seq<Row>, c: Cursor, c': Cursor, length: nat)
    requires c'.search == c.search && c'.resume == c.resume && length > 0
    ensures Shrinks(rows, c, c', length, length - 1)
  {
  }

  lemma PoppedStepped(rows: seq<Row>, v: View, c: Cursor, rest: seq<Candidate>)
    requires v.queue != [] && v.queue[0].scanIndex < |v.cursors|
    requires Shrinks(rows, v.cursors[v.queue[0].scanIndex], c, |v.queue|, |rest|)
    ensures Stepped(rows, v, Popped(v, c, rest))
  {
    RankSumUpdate(rows, v.cursors, v.queue[0].scanIndex, c);
  }

  /** The front candidate has been dealt with, and less remains to be read. */
  ghost predicate Stepped(rows: seq<Row>, v: View, w: View) {
    && v.queue != []
    && w.n == v.n && |w.cursors| == |v.cursors| && w.visited == v.visited + {v.queue[0].levId}
    && RoundsLeft(rows, w) < RoundsLeft(rows, v)
  }

  lemma FrontCounted(f: Filter, plan: Plan, v: View, keep: Table, hist: Table)
    requires ScanInv(f, plan, v, keep, hist) && v.n == |v.cursors| && v.queue != []
    ensures Sourced(plan, hist, v.n, v.queue[0])
    ensures v.cursors[v.queue[0].scanIndex].outstanding == 1 + Count(v.queue[1..], v.queue[0].scanIndex)
  {
    assert v.queue[0] in v.queue;
  }

  lemma RowsAreInRange(rows: seq<Row>, ix: Index, db: Table)
    requires IsIndex(rows, ix, db) && TableOk(db)
    ensures RowsInRange(rows)
  {
    forall k | 0 <= k < |rows| ensures 1 <= rows[k].levId <= MAX_U64 && rows[k].created < TIME_LIMIT {
      assert IsRow(ix, db, rows[k]);
    }
  }

  /** Reading does not depend on the outstanding count. */
  lemma Refilled(rows: seq<Row>, f: Filter, c0: Cursor, c: Cursor, j: nat, c': Cursor, out: seq<Candidate>)
    requires c == c0.(outstanding := c.outstanding) && Moved(rows, f, c, j, c', out)
    ensures Moved(rows, f, c0, j, c', out)
  {
    assert forall created, levId :: Pending(c, created, levId) == Pending(c0, created, levId);
  }

  // ---------------------------------------------------------------------------
  // What a query has to send

  predicate NewerEvent(db: Table, a: nat, b: nat)
    requires a in db && b in db
  {
    NewerAt(db[a].createdAt, a, db[b].createdAt, b)
  }

  /** Newest first, no repetition. */
  ghost predicate Descending(list: seq<nat>, hist: Table) {
    && (forall l :: l in list ==> l in hist)
    && forall i, j :: 0 <= i < j < |list| ==> NewerEvent(hist, list[i], list[j])
  }

  /** An event that a query for `f` started at `latest` has to consider. */
  predicate Wanted(f: Filter, db: Table, latest: nat, l: nat) {
    l in db && l <= latest && Matches(f, db[l])
  }

  /** `list` answers filter `f`: matching events that were stored, newest first, at
      most `limit` of them, and an event that stayed stored is left out only when
      `limit` newer ones are in. */
  ghost predicate TopOf(list: seq<nat>, f: Filter, keep: Table, hist: Table, latest: nat) {
    && Descending(list, hist)
    && (forall l :: l in list ==> Wanted(f, hist, latest, l))
    && |list| <= f.limit
    && forall l :: Wanted(f, keep, latest, l) && l !in list ==>
        |list| == f.limit && forall m :: m in list ==> NewerAt(hist[m].createdAt, m, keep[l].createdAt, l)
  }

  ghost predicate IsNewest(db: Table, s: set<nat>, l: nat)
    requires forall x :: x in s ==> x in db
  {
    l in s && forall x :: x in s && x != l ==> NewerEvent(db, l, x)
  }

  ghost function Newest(db: Table, s: set<nat>): (l: nat)
    requires s != {} && forall x :: x in s ==> x in db
    ensures IsNewest(db, s, l)
  {
    NewestExists(db, s);
    var l :| IsNewest(db, s, l);
    l
  }

  lemma {:induction false} NewestExists(db: Table, s: set<nat>)
    requires s != {} && forall x :: x in s ==> x in db
    ensures exists l :: IsNewest(db, s, l)
    decreases |s|
  {
    var y :| y in s;
    var t := s - {y};
    assert forall x :: x in s <==> x == y || x in t;
    if t == {} {
      assert IsNewest(db, s, y);
    } else {
      NewestExists(db, t);
      var l :| IsNewest(db, t, l);
      assert IsNewest(db, s, if NewerEvent(db, l, y) then l else y);
    }
  }

  ghost function NewestFirst(db: Table, s: set<nat>): (r: seq<nat>)
    requires forall x :: x in s ==> x in db
    ensures Descending(r, db) && |r| == |s| && forall x :: x in r <==> x in s
    decreases |s|
  {
    if s == {} then []
    else
      var l := Newest(db, s);
      var r := [l] + NewestFirst(db, s - {l});
      assert forall x :: x in s <==> x == l || x in s - {l};
      r
  }

  /** The brute-force answer on one snapshot: filter everything, sort newest first,
      take `limit`. */
  ghost function Answer(f: Filter, db: Table, latest: nat): (r: seq<nat>) {
    var all := NewestFirst(db, set l | l in db && Wanted(f, db, latest, l));
    if |all| <= f.limit then all else all[..f.limit]
  }

  lemma DescendingDistinct(list: seq<nat>, db: Table, i: nat, j: nat)
    requires Descending(list, db) && i < j < |list|
    ensures list[i] != list[j]
  {
    assert NewerEvent(db, list[i], list[j]);
  }

  lemma PositionFrom(all: seq<nat>, list: seq<nat>, db: Table, k: nat, i: nat) returns (j: nat)
    requires Descending(list, db) && k <= i < |list| && list[i] in all
    requires forall m :: 0 <= m < k && m < |all| ==> list[m] == all[m]
    ensures k <= j < |all| && all[j] == list[i]
  {
    j :| 0 <= j < |all| && all[j] == list[i];
    if j < k { DescendingDistinct(list, db, j, i); }
  }

  /** The two lists have the same next element. */
  lemma NextInPrefix(list: seq<nat>, all: seq<nat>, f: Filter, db: Table, latest: nat, k: nat)
    requires TopOf(list, f, db, db, latest) && k < |list|
    requires Descending(all, db) && forall l :: l in all <==> Wanted(f, db, latest, l)
    requires forall m :: 0 <= m < k && m < |all| ==> list[m] == all[m]
    ensures k < |all| && list[k] == all[k]
  {
    var x := list[k];
    assert x in list && Wanted(f, db, latest, x);
    var j := PositionFrom(all, list, db, k, k);
    var y := all[k];
    assert y in all;
    assert j == k || NewerEvent(db, y, x);
    assert y in list ==> exists m :: 0 <= m < |list| && list[m] == y;
  }

  lemma {:induction false} PrefixOf(list: seq<nat>, all: seq<nat>, f: Filter, db: Table, latest: nat, n: nat)
    requires TopOf(list, f, db, db, latest) && n <= |list|
    requires Descending(all, db) && forall l :: l in all <==> Wanted(f, db, latest, l)
    ensures n <= |all| && forall m :: 0 <= m < n ==> list[m] == all[m]
  {
    if n > 0 {
      PrefixOf(list, all, f, db, latest, n - 1);
      NextInPrefix(list, all, f, db, latest, n - 1);
    }
  }

  lemma AllOrLimit(list: seq<nat>, all: seq<nat>, f: Filter, db: Table, latest: nat)
    requires TopOf(list, f, db, db, latest)
    requires Descending(all, db) && forall l :: l in all <==> Wanted(f, db, latest, l)
    ensures |list| <= |all| && list == all[..|list|]
    ensures |list| == |all| || |list| == f.limit
  {
    PrefixOf(list, all, f, db, latest, |list|);
    assert list == all[..|list|];
    if |list| < |all| {
      var y := all[|list|];
      assert y in all;
      assert y !in list by {
        forall k | 0 <= k < |list| ensures list[k] != y { assert NewerEvent(db, all[k], y); }
      }
    }
  }

  /** On a single snapshot the requirements leave only the brute-force answer. */
  lemma TopOfIsAnswer(list: seq<nat>, f: Filter, db: Table, latest: nat)
    requires TopOf(list, f, db, db, latest)
    ensures list == Answer(f, db, latest)
  {
    var all := NewestFirst(db, set l | l in db && Wanted(f, db, latest, l));
    forall l ensures l in all <==> Wanted(f, db, latest, l) {}
    AllOrLimit(list, all, f, db, latest);
    assert all[..|all|] == all;
  }

  lemma LeftOutIsOlder(all: seq<nat>, db: Table, n: nat, l: nat, m: nat)
    requires Descending(all, db) && n < |all| && l in all && l !in all[..n] && m in all[..n]
    ensures m in db && l in db && NewerEvent(db, m, l)
  {
    assert forall k :: 0 <= k < n ==> all[k] in all[..n];
    var j :| 0 <= j < |all| && all[j] == l;
    var i :| 0 <= i < n && all[..n][i] == m;
    assert NewerEvent(db, all[i], all[j]);
  }

  /** And the brute-force answer meets them. */
  lemma AnswerIsTop(f: Filter, db: Table, latest: nat)
    ensures TopOf(Answer(f, db, latest), f, db, db, latest)
  {
    var all := NewestFirst(db, set l | l in db && Wanted(f, db, latest, l));
    forall l ensures l in all <==> Wanted(f, db, latest, l) {}
    PrefixIsTop(all, f, db, latest);
  }

  lemma PrefixIsTop(all: seq<nat>, f: Filter, db: Table, latest: nat)
    requires Descending(all, db) && forall l :: l in all <==> Wanted(f, db, latest, l)
    ensures TopOf(if |all| <= f.limit then all else all[..f.limit], f, db, db, latest)
  {
    if |all| > f.limit {
      var list := all[..f.limit];
      assert forall l :: l in list ==> l in all;
      forall l, m | Wanted(f, db, latest, l) && l !in list && m in list ensures NewerAt(db[m].createdAt, m, db[l].createdAt, l) {
        LeftOutIsOlder(all, db, f.limit, l, m);
      }
    }
  }

  /** The events of `list` that `acc` does not have yet, appended in order. */
  ghost function Append(acc: seq<nat>, list: seq<nat>): (r: seq<nat>) {
    if list == [] then acc
    else
      var r := Append(acc, list[..|list| - 1]);
      if list[|list| - 1] in r then r else r + [list[|list| - 1]]
  }

  /** The answers of a filter group, each event once, in order. */
  ghost function InOrder(lists: seq<seq<nat>>): (r: seq<nat>) {
    if lists == [] then [] else Append(InOrder(lists[..|lists| - 1]), lists[|lists| - 1])
  }

  lemma {:induction false} AppendHas(acc: seq<nat>, list: seq<nat>, l: nat)
    ensures l in Append(acc, list) <==> l in acc || l in list
    decreases |list|
  {
    if list != [] {
      var n := |list| - 1;
      AppendHas(acc, list[..n], l);
      assert list == list[..n] + [list[n]];
    }
  }

  lemma {:induction false} InOrderHas(lists: seq<seq<nat>>, l: nat)
    ensures l in InOrder(lists) <==> exists i :: 0 <= i < |lists| && l in lists[i]
    decreases |lists|
  {
    if lists != [] {
      var n := |lists| - 1;
      InOrderHas(lists[..n], l);
      AppendHas(InOrder(lists[..n]), lists[n], l);
      assert forall i :: 0 <= i < n ==> lists[..n][i] == lists[i];
    }
  }

  // ---------------------------------------------------------------------------
  // Following the current filter

  /** `curr` holds the wanted events among the visited ones, newest first. */
  ghost predicate Current(curr: seq<nat>, f: Filter, visited: set<nat>, keep: Table, hist: Table, latest: nat) {
    && Descending(curr, hist)
    && (forall l :: l in curr ==> Wanted(f, hist, latest, l) && l in visited)
    && (forall l :: l in visited && Wanted(f, keep, latest, l) ==> l in curr)
  }

  /** What handling the front candidate makes of `curr`. */
  ghost function Handled(curr: seq<nat>, doSend: bool, limit: nat, latest: nat, levId: nat): (r: seq<nat>) {
    if !doSend || limit == 0 || levId > latest || levId in curr then curr else curr + [levId]
  }

  /** The decision whether a candidate matches, from the index row alone or from
      the stored event. */
  ghost predicate Decided(f: Filter, doSend: bool, levId: nat, keep: Table, hist: Table) {
    && (doSend ==> levId in hist && Matches(f, hist[levId]))
    && (levId in keep && Matches(f, keep[levId]) ==> doSend)
  }

  lemma DecidedSoundly(f: Filter, plan: Plan, ev: Candidate, n: nat, db: Table, doSend: bool, keep: Table, hist: Table)
    requires Sound(plan, f) && Sourced(plan, hist, n, ev) && Within(keep, db) && Within(db, hist)
    requires doSend == if plan.indexOnly then MatchesTimes(f, ev.created) else ev.levId in db && Matches(f, db[ev.levId])
    ensures Decided(f, doSend, ev.levId, keep, hist)
  {
    if plan.indexOnly && doSend {
      assert HasMajor(plan.index, hist[ev.levId], plan.searches[ev.scanIndex]);
    }
  }

  lemma HandledStep(f: Filter, plan: Plan, v: View, keep: Table, hist: Table, latest: nat, curr: seq<nat>, doSend: bool)
    requires ScanInv(f, plan, v, keep, hist) && v.n == |v.cursors| && v.queue != []
    requires Sourced(plan, hist, v.n, v.queue[0]) && Within(keep, hist)
    requires Current(curr, f, v.visited, keep, hist, latest) && Decided(f, doSend, v.queue[0].levId, keep, hist)
    requires f.limit > 0 || !doSend
    ensures Current(Handled(curr, doSend, f.limit, latest, v.queue[0].levId), f, v.visited + {v.queue[0].levId}, keep, hist, latest)
  {
    var ev := v.queue[0];
    var next := Handled(curr, doSend, f.limit, latest, ev.levId);
    assert ev in v.queue;
    if next != curr {
      forall i | 0 <= i < |curr| ensures NewerEvent(hist, curr[i], ev.levId) {
        assert curr[i] in curr && !NewerAt(ev.created, ev.levId, hist[curr[i]].createdAt, curr[i]);
      }
    }
  }

  /** The plan has a cursor through which every wanted event is due. */
  lemma WantedIsDue(f: Filter, plan: Plan, n: nat, keep: Table, latest: nat, l: nat) returns (j: nat)
    requires Complete(plan, f) && Wanted(f, keep, latest, l) && n == |plan.searches|
    ensures Due(f, plan, n, keep, l, j)
  {
    j :| 0 <= j < |plan.searches| && HasMajor(plan.index, keep[l], plan.searches[j]);
  }

  /** When the limit is reached, everything left out is older. */
  lemma LimitReached(f: Filter, plan: Plan, v: View, keep: Table, hist: Table, latest: nat, curr: seq<nat>)
    requires ScanInv(f, plan, v, keep, hist) && v.n == |v.cursors| && v.queue != []
    requires Sourced(plan, hist, v.n, v.queue[0]) && Complete(plan, f)
    requires Current(curr, f, v.visited + {v.queue[0].levId}, keep, hist, latest) && |curr| == f.limit
    ensures TopOf(curr, f, keep, hist, latest)
  {
    var ev := v.queue[0];
    assert ev in v.queue;
    forall l, m | Wanted(f, keep, latest, l) && l !in curr && m in curr
      ensures NewerAt(hist[m].createdAt, m, keep[l].createdAt, l)
    {
      var j := WantedIsDue(f, plan, v.n, keep, latest, l);
      FrontIsNewest(f, plan, v, keep, hist, l, j);
      assert m == ev.levId || !NewerAt(ev.created, ev.levId, hist[m].createdAt, m);
    }
  }

  /** When the scan runs dry, nothing has been left out. */
  lemma ScanFinished(f: Filter, plan: Plan, v: View, keep: Table, hist: Table, latest: nat, curr: seq<nat>)
    requires ScanInv(f, plan, v, keep, hist) && v.n == |v.cursors| && v.queue == [] && Complete(plan, f)
    requires Current(curr, f, v.visited, keep, hist, latest) && |curr| <= f.limit
    ensures TopOf(curr, f, keep, hist, latest)
  {
    forall l | Wanted(f, keep, latest, l) ensures l in curr {
      var j := WantedIsDue(f, plan, v.n, keep, latest, l);
      EmptyQueueIsDone(f, plan, v, keep, hist, l, j);
    }
  }

  // ---------------------------------------------------------------------------
  // What has been sent

  /** `order` lists the events a query has come up with, each once; `sent` are the
      ones whose payload was still there, and nothing that stayed stored is
      missing from it. */
  ghost predicate SentOk(sent: seq<nat>, order: seq<nat>, keep: Table, hist: Table) {
    && NoRepeats(sent)
    && (forall l :: l in sent ==> l in order)
    && (forall l :: l in order && l in keep ==> l in sent)
    && (keep == hist ==> sent == order)
  }

  lemma SendOne(sent: seq<nat>, order: seq<nat>, l: nat, db: Table, keep: Table, hist: Table)
    requires SentOk(sent, order, keep, hist) && l !in order && l in hist
    requires Within(keep, db) && Within(db, hist)
    ensures SentOk(if l in db then sent + [l] else sent, order + [l], keep, hist)
  {
    if keep == hist { assert l in keep; }
  }

  /** The two sets of a query and its output agree with what it has come up with. */
  ghost predicate RecordedBy(full: set<nat>, currSet: set<nat>, sent: seq<nat>, order: seq<nat>, curr: seq<nat>, keep: Table, hist: Table) {
    && (forall l :: l in full <==> l in order)
    && (forall l :: l in currSet <==> l in curr)
    && |currSet| == |curr|
    && SentOk(sent, order, keep, hist)
  }

  lemma RecordOne(full: set<nat>, currSet: set<nat>, sent: seq<nat>, tops: seq<seq<nat>>, curr: seq<nat>, l: nat, db: Table, keep: Table, hist: Table)
    requires RecordedBy(full, currSet, sent, Append(InOrder(tops), curr), curr, keep, hist) && l in hist
    requires Within(keep, db) && Within(db, hist)
    ensures
      var curr' := if l in curr then curr else curr + [l];
      var sent' := if l in full || l !in db then sent else sent + [l];
      RecordedBy(full + {l}, currSet + {l}, sent', Append(InOrder(tops), curr'), curr', keep, hist)
  {
    var order := Append(InOrder(tops), curr);
    AppendHas(InOrder(tops), curr, l);
    if l !in curr {
      var curr' := curr + [l];
      assert curr'[..|curr'| - 1] == curr;
      assert Append(InOrder(tops), curr') == if l in order then order else order + [l];
    }
    if l !in order { SendOne(sent, order, l, db, keep, hist); }
    assert l in curr ==> currSet + {l} == currSet;
    assert l in full ==> full + {l} == full;
  }

  /** The answer to the current filter joins the others. */
  lemma RecordedNext(full: set<nat>, currSet: set<nat>, sent: seq<nat>, tops: seq<seq<nat>>, curr: seq<nat>, keep: Table, hist: Table)
    requires RecordedBy(full, currSet, sent, Append(InOrder(tops), curr), curr, keep, hist)
    ensures RecordedBy(full, {}, sent, Append(InOrder(tops + [curr]), []), [], keep, hist)
  {
    assert (tops + [curr])[..|tops|] == tops;
    assert Append(InOrder(tops + [curr]), []) == Append(InOrder(tops), curr);
  }

  // ---------------------------------------------------------------------------
  // Pausing

  /** The times that the clock was looked at, it was not late, but for the last one if the
      query was paused. */
  ghost predicate InTime(clock: Clock, from: nat, looks: nat, complete: bool) {
    var last := looks - 1;
    && (forall n :: from <= n < last ==> !Late(clock, n))
    && (if from < looks then Late(clock, last) <==> !complete else complete)
  }

  /** Whether to pause: never before enough work has been done. */
  method Look(clock: Clock, work: nat, checked: nat, ghost looks0: nat, looks: nat) returns (pause: bool, checked': nat, looks': nat)
    requires looks0 <= looks && InTime(clock, looks0, looks, true)
    ensures looks <= looks' && InTime(clock, looks0, looks', !pause)
    ensures checked' == if work > checked + CHECK_INTERVAL then work else checked
    ensures pause ==> work > checked + CHECK_INTERVAL
  {
    if work <= checked + CHECK_INTERVAL { return false, checked, looks; }
    return Late(clock, looks), work, looks + 1;
  }

  // ---------------------------------------------------------------------------
  // The query object

  class DBQuery {
    const filters: seq<Filter>
    const latestEventId: nat
    var scanner: DBScan?
    var filterGroupIndex: nat
    var sentEventsFull: set<nat>
    var sentEventsCurr: set<nat>
    var lastWorkChecked: nat
    /** The levIds handed to the subscriber, in order. */
    var sent: seq<nat>
    /** The answers to the filters already finished, and to the current one so far. */
    ghost var tops: seq<seq<nat>>
    ghost var curr: seq<nat>

    /** The sets and the output agree with the answers. */
    ghost predicate Recorded(keep: Table, hist: Table)
      reads `sentEventsFull, `sentEventsCurr, `sent, `tops, `curr
    {
      RecordedBy(sentEventsFull, sentEventsCurr, sent, Append(InOrder(tops), curr), curr, keep, hist)
    }

    ghost predicate Finished(keep: Table, hist: Table)
      reads `filterGroupIndex, `tops
    {
      var n := filterGroupIndex;
      && n <= |filters| && |tops| == n
      && (forall i :: 0 <= i < |filters| ==> Runnable(filters[i]))
      && forall i :: 0 <= i < n ==> TopOf(tops[i], filters[i], keep, hist, latestEventId)
    }

    /** What holds between any two steps of the current filter. */
    ghost predicate Following(s: DBScan, keep: Table, hist: Table)
      reads `filterGroupIndex, `curr, s`cursors, s`queue, s`nextInitIndex, s`visited
    {
      var n := filterGroupIndex;
      && n < |filters| && s.f == filters[n]
      && s.Inv(keep, hist)
      && Current(curr, s.f, s.visited, keep, hist, latestEventId)
      && |curr| <= s.f.limit && (s.f.limit > 0 ==> |curr| < s.f.limit)
    }

    ghost predicate Inv(keep: Table, hist: Table)
      reads this, scanner
    {
      && Finished(keep, hist)
      && Recorded(keep, hist)
      && (scanner == null ==> curr == [])
      && (scanner != null ==> scanner.owner == this && Following(scanner, keep, hist) && scanner.approxWork <= lastWorkChecked)
    }

    /** How many slices on a snapshot can end before the query is through. */
    ghost function SlicesLeft(snap: Snapshot): (n: int)
      requires forall ix :: ix in snap.indices
      reads `scanner, `filterGroupIndex, scanner
    {
      var rest := |filters| - filterGroupIndex;
      if scanner == null then FreshSlices(snap, rest)
      else FreshSlices(snap, rest - 1) + RoundsLeft(snap.indices[scanner.plan.index], scanner.Seen()) + 1
    }

    constructor (filters: seq<Filter>, latestEventId: nat)
      requires forall i :: 0 <= i < |filters| ==> Runnable(filters[i])
      ensures this.filters == filters && this.latestEventId == latestEventId && sent == [] && scanner == null
      ensures forall keep, hist :: Inv(keep, hist)
      ensures filterGroupIndex == 0
    {
      this.filters := filters;
      this.latestEventId := latestEventId;
      scanner := null;
      lastWorkChecked := 0;
      filterGroupIndex := 0;
      sentEventsFull := {};
      sentEventsCurr := {};
      sent := [];
      tops := [];
      curr := [];
    }

    /** The callback of DBQuery::process together with the scheduler's check that
        the payload still exists. Returns whether the scan is to stop. */
    method HandleEvent(limit: nat, levId: nat, snap: Snapshot, ghost keep: Table, ghost hist: Table) returns (stop: bool)
      requires Recorded(keep, hist) && levId in hist
      requires Within(keep, snap.events) && Within(snap.events, hist)
      modifies `sentEventsFull, `sentEventsCurr, `sent, `curr
      ensures Recorded(keep, hist)
      ensures curr == Handled(old(curr), true, limit, latestEventId, levId)
      ensures stop <==> limit == 0 || (levId <= latestEventId && |curr| >= limit)
      ensures sent == old(sent) || (sent == old(sent) + [levId] && levId in snap.events)
    {
      stop := limit == 0;
      if limit != 0 && levId <= latestEventId {
        ghost var list := if levId in curr then curr else curr + [levId];
        RecordOne(sentEventsFull, sentEventsCurr, sent, tops, curr, levId, snap.events, keep, hist);
        Record(levId, levId in snap.events);
        curr := list;
        stop := |sentEventsCurr| >= limit;
      }
    }

    /** Enters an event in both sets and passes it on if it is new to the query. */
    method Record(levId: nat, stored: bool)
      modifies `sentEventsFull, `sentEventsCurr, `sent
      ensures sentEventsFull == old(sentEventsFull) + {levId}
      ensures sentEventsCurr == old(sentEventsCurr) + {levId}
      ensures sent == if levId in old(sentEventsFull) || !stored then old(sent) else old(sent) + [levId]
    {
      if levId !in sentEventsFull {
        sentEventsFull := sentEventsFull + {levId};
        if stored { sent := sent + [levId]; }
      }
      sentEventsCurr := sentEventsCurr + {levId};
    }

    /** DBScan::scan with the query as its callback. Each time it has done enough work it
        looks at the clock, and pauses if the time is up; `looks` counts these times. It
        never pauses for any other reason, and not before it has gone round once; nor does
        it do much work, or visit many candidates, without looking. */
    method Scan(s: DBScan, snap: Snapshot, clock: Clock, looks0: nat, ghost keep: Table, ghost hist: Table)
        returns (complete: bool, looks: nat)
      requires Finished(keep, hist) && Recorded(keep, hist) && Following(s, keep, hist) && s.approxWork <= lastWorkChecked
      requires SnapshotOk(snap) && Within(keep, snap.events) && Within(snap.events, hist)
      modifies s, `sentEventsFull, `sentEventsCurr, `sent, `curr, `lastWorkChecked
      ensures Finished(keep, hist) && Recorded(keep, hist)
      ensures !complete ==> Following(s, keep, hist) && s.approxWork == lastWorkChecked > old(lastWorkChecked) + 2_000
      ensures !complete ==> RoundsLeft(snap.indices[s.plan.index], s.Seen()) < old(RoundsLeft(snap.indices[s.plan.index], s.Seen()))
      ensures complete ==> TopOf(curr, filters[filterGroupIndex], keep, hist, latestEventId)
      ensures Sends(old(sent), sent, snap.events)
      ensures looks0 <= looks && InTime(clock, looks0, looks, complete)
      ensures s.approxWork <= lastWorkChecked + 2_000 + ROUND_WORK
      ensures |s.visited| - old(|s.visited|) <= s.approxWork - old(s.approxWork)
    {
      looks := looks0;
      var work: nat, checked: nat, paused := s.approxWork, lastWorkChecked, false;
      ghost var rows := snap.indices[s.plan.index];
      ghost var first, checked0, rounds, started := sent, lastWorkChecked, RoundsLeft(rows, s.Seen()), false;
      ghost var visited, work0 := |s.visited|, s.approxWork;
      complete := false;
      while !complete && !paused
        invariant Finished(keep, hist) && Recorded(keep, hist) && Sends(first, sent, snap.events)
        invariant if complete then TopOf(curr, filters[filterGroupIndex], keep, hist, latestEventId) else Following(s, keep, hist)
        invariant looks0 <= looks && InTime(clock, looks0, looks, !paused) && !(complete && paused)
        invariant checked >= checked0 && (!started ==> work <= checked == checked0)
        invariant work <= checked + CHECK_INTERVAL + ROUND_WORK && |s.visited| - visited <= work - work0
        invariant paused ==> started && work == checked > checked0 + CHECK_INTERVAL
        invariant !complete ==> RoundsLeft(rows, s.Seen()) + (if started then 1 else 0) <= rounds
        decreases !complete && !paused, RoundsLeft(rows, s.Seen())
      {
        work := work + 1;
        paused, checked, looks := Look(clock, work, checked, looks0, looks);
        if !paused {
          started := true;
          var spent;
          complete, spent := Round(s, snap, first, keep, hist);
          work := work + spent;
        }
      }
      s.approxWork, lastWorkChecked := work, checked;
    }

    /** Once round the loop of the scan: a cursor is read for the first time, or nothing is
        left, or a candidate is dealt with. */
    method Round(s: DBScan, snap: Snapshot, ghost first: seq<nat>, ghost keep: Table, ghost hist: Table) returns (done: bool, work: nat)
      requires Finished(keep, hist) && Recorded(keep, hist) && Following(s, keep, hist) && Sends(first, sent, snap.events)
      requires SnapshotOk(snap) && Within(keep, snap.events) && Within(snap.events, hist)
      modifies s, `sentEventsFull, `sentEventsCurr, `sent, `curr
      ensures Finished(keep, hist) && Recorded(keep, hist) && Sends(first, sent, snap.events)
      ensures !done ==> Following(s, keep, hist)
      ensures !done ==> RoundsLeft(snap.indices[s.plan.index], s.Seen()) < old(RoundsLeft(snap.indices[s.plan.index], s.Seen()))
      ensures done ==> TopOf(curr, filters[filterGroupIndex], keep, hist, latestEventId)
      ensures work <= ROUND_WORK && |s.visited| <= old(|s.visited|) + 1
    {
      if s.nextInitIndex < |s.cursors| {
        work := s.InitNext(snap, keep, hist);
        return false, work;
      }
      if s.queue == [] {
        ScanFinished(s.f, s.plan, s.Seen(), keep, hist, latestEventId, curr);
        return true, 0;
      }
      ghost var before := sent;
      done, work := Visit(s, snap, keep, hist);
      SendsMore(first, before, sent, snap.events);
    }

    /** One candidate: match it, hand it on, and take it off the queue. The queue is
        not looked at by the callback, so the candidate may as well stay in it
        until the callback has returned. */
    method Visit(s: DBScan, snap: Snapshot, ghost keep: Table, ghost hist: Table) returns (stop: bool, work: nat)
      requires Recorded(keep, hist) && Following(s, keep, hist)
      requires s.nextInitIndex == |s.cursors| && s.queue != []
      requires SnapshotOk(snap) && Within(keep, snap.events) && Within(snap.events, hist)
      modifies s, `sentEventsFull, `sentEventsCurr, `sent, `curr
      ensures Recorded(keep, hist)
      ensures !stop ==> Following(s, keep, hist) && Stepped(snap.indices[s.plan.index], old(s.Seen()), s.Seen())
      ensures stop ==> TopOf(curr, s.f, keep, hist, latestEventId)
      ensures work <= ROUND_WORK && |s.visited| <= old(|s.visited|) + 1
      ensures sent == old(sent) || (sent == old(sent) + [old(s.queue[0].levId)] && old(s.queue[0].levId) in snap.events)
    {
      var ev := s.queue[0];
      var doSend := DecideFront(s, snap, keep, hist);
      work := if s.plan.indexOnly then 0 else 10;
      stop := HandFront(s, doSend, snap, keep, hist);
      if !stop {
        var read := s.Advance(snap, keep, hist);
        work := work + read;
      }
    }

    /** Whether the front candidate matches. */
    method DecideFront(s: DBScan, snap: Snapshot, ghost keep: Table, ghost hist: Table) returns (doSend: bool)
      requires Following(s, keep, hist) && s.nextInitIndex == |s.cursors| && s.queue != []
      requires Within(keep, snap.events) && Within(snap.events, hist)
      ensures Sourced(s.plan, hist, s.nextInitIndex, s.queue[0]) && Decided(s.f, doSend, s.queue[0].levId, keep, hist)
    {
      var ev := s.queue[0];
      FrontCounted(s.f, s.plan, s.Seen(), keep, hist);
      doSend := if s.plan.indexOnly then MatchesTimes(s.f, ev.created)
                else ev.levId in snap.events && Matches(s.f, snap.events[ev.levId]);
      DecidedSoundly(s.f, s.plan, ev, s.nextInitIndex, snap.events, doSend, keep, hist);
    }

    /** The front candidate is handed on, if it matches. */
    method HandFront(s: DBScan, doSend: bool, snap: Snapshot, ghost keep: Table, ghost hist: Table) returns (stop: bool)
      requires Recorded(keep, hist) && Following(s, keep, hist) && s.nextInitIndex == |s.cursors| && s.queue != []
      requires Within(keep, snap.events) && Within(snap.events, hist)
      requires Sourced(s.plan, hist, s.nextInitIndex, s.queue[0]) && Decided(s.f, doSend, s.queue[0].levId, keep, hist)
      modifies `sentEventsFull, `sentEventsCurr, `sent, `curr
      ensures Recorded(keep, hist) && |curr| <= s.f.limit
      ensures stop ==> TopOf(curr, s.f, keep, hist, latestEventId)
      ensures !stop ==>
        Current(curr, s.f, s.visited + {s.queue[0].levId}, keep, hist, latestEventId) && (s.f.limit > 0 ==> |curr| < s.f.limit)
      ensures sent == old(sent) || (sent == old(sent) + [s.queue[0].levId] && s.queue[0].levId in snap.events)
    {
      stop := false;
      if s.f.limit > 0 || !doSend { HandledStep(s.f, s.plan, s.Seen(), keep, hist, latestEventId, curr, doSend); }
      if doSend { stop := HandleEvent(s.f.limit, s.queue[0].levId, snap, keep, hist); }
      if stop && s.f.limit > 0 { LimitReached(s.f, s.plan, s.Seen(), keep, hist, latestEventId, curr); }
    }

    /** DBQuery::process: filter after filter until the group is done or the time is
        up; returns whether the query is complete. A slice that ends early brings the
        query nearer to its end. */
    method Process(snap: Snapshot, clock: Clock, ghost keep: Table, ghost hist: Table) returns (complete: bool)
      requires Inv(keep, hist)
      requires SnapshotOk(snap) && Within(keep, snap.events) && Within(snap.events, hist)
      modifies this, scanner
      ensures Inv(keep, hist)
      ensures scanner == null || scanner == old(scanner) || fresh(scanner)
      ensures complete ==> filterGroupIndex == |filters|
      ensures !complete ==> exists n :: Late(clock, n)
      ensures !complete ==> SlicesLeft(snap) < old(SlicesLeft(snap))
      ensures Sends(old(sent), sent, snap.events)
    {
      var looks := 0;
      while filterGroupIndex < |filters|
        invariant Inv(keep, hist) && SlicesLeft(snap) <= old(SlicesLeft(snap))
        invariant scanner == null || scanner == old(scanner) || fresh(scanner)
        invariant Sends(old(sent), sent, snap.events)
        decreases |filters| - filterGroupIndex
      {
        complete, looks := RunFilter(snap, clock, looks, old(sent), keep, hist);
        if !complete { return; }
      }
      complete := true;
    }

    /** The current filter, as far as the time allows. */
    method RunFilter(snap: Snapshot, clock: Clock, looks0: nat, ghost first: seq<nat>, ghost keep: Table, ghost hist: Table)
        returns (complete: bool, looks: nat)
      requires Inv(keep, hist) && filterGroupIndex < |filters| && Sends(first, sent, snap.events)
      requires SnapshotOk(snap) && Within(keep, snap.events) && Within(snap.events, hist)
      modifies this, scanner
      ensures Inv(keep, hist) && Sends(first, sent, snap.events)
      ensures scanner == null || scanner == old(scanner) || fresh(scanner)
      ensures !complete ==> looks > 0 && Late(clock, looks - 1)
      ensures filterGroupIndex == old(filterGroupIndex) + if complete then 1 else 0
      ensures SlicesLeft(snap) < old(SlicesLeft(snap))
    {
      if scanner == null { NewScan(snap, keep, hist); }
      complete, looks := ScanOn(snap, clock, looks0, first, keep, hist);
    }

    method ScanOn(snap: Snapshot, clock: Clock, looks0: nat, ghost first: seq<nat>, ghost keep: Table, ghost hist: Table)
        returns (complete: bool, looks: nat)
      requires Inv(keep, hist) && filterGroupIndex < |filters| && scanner != null && Sends(first, sent, snap.events)
      requires SnapshotOk(snap) && Within(keep, snap.events) && Within(snap.events, hist)
      modifies this, scanner
      ensures Inv(keep, hist) && Sends(first, sent, snap.events)
      ensures scanner == null || scanner == old(scanner)
      ensures !complete ==> looks > 0 && Late(clock, looks - 1)
      ensures filterGroupIndex == old(filterGroupIndex) + if complete then 1 else 0
      ensures SlicesLeft(snap) < old(SlicesLeft(snap))
    {
      var s := scanner;
      ghost var before, rest := sent, FreshSlices(snap, |filters| - filterGroupIndex - 1);
      ghost var rounds := RoundsLeft(snap.indices[s.plan.index], s.Seen());
      RoundsAreLeft(s.f, s.plan, snap.indices[s.plan.index], s.Seen(), keep, hist);
      assert SlicesLeft(snap) == rest + rounds + 1;
      complete, looks := Scan(s, snap, clock, looks0, keep, hist);
      SendsThen(first, before, sent, snap.events);
      if complete {
        NextFilter(keep, hist);
        assert SlicesLeft(snap) == rest;
      } else {
        assert RoundsLeft(snap.indices[s.plan.index], s.Seen()) < rounds;
      }
    }

    method NewScan(snap: Snapshot, ghost keep: Table, ghost hist: Table)
      requires Inv(keep, hist) && scanner == null && filterGroupIndex < |filters| && SnapshotOk(snap)
      modifies `scanner
      ensures Inv(keep, hist) && scanner != null && fresh(scanner) && SlicesLeft(snap) <= old(SlicesLeft(snap))
    {
      scanner := new DBScan(filters[filterGroupIndex], this);
      FreshRoundsLeft(snap, scanner.plan.index, scanner.Seen());
    }

    /** The current filter is done. */
    method NextFilter(ghost keep: Table, ghost hist: Table)
      requires filterGroupIndex < |filters| && Finished(keep, hist) && Recorded(keep, hist)
      requires TopOf(curr, filters[filterGroupIndex], keep, hist, latestEventId)
      modifies this
      ensures Inv(keep, hist) && scanner == null && sent == old(sent)
      ensures filterGroupIndex == old(filterGroupIndex) + 1
    {
      RecordedNext(sentEventsFull, sentEventsCurr, sent, tops, curr, keep, hist);
      scanner := null;
      filterGroupIndex := filterGroupIndex + 1;
      sentEventsCurr := {};
      tops := tops + [curr];
      curr := [];
    }
  }

  // ---------------------------------------------------------------------------
  // How many slices a query takes

  /** The rows of all indices. */
  function AllRows(snap: Snapshot): (n: nat)
    requires forall ix :: ix in snap.indices
  {
    |snap.indices[ById]| + |snap.indices[ByTag]| + |snap.indices[ByPubkeyKind]|
      + |snap.indices[ByPubkey]| + |snap.indices[ByKind]| + |snap.indices[ByCreatedAt]|
  }

  /** How often the loop of a new scan can go round. */
  function FreshRounds(snap: Snapshot): (n: nat)
    requires forall ix :: ix in snap.indices
  {
    SCAN_LIMIT * (1 + AllRows(snap))
  }

  lemma FreshRoundsLeft(snap: Snapshot, ix: Index, v: View)
    requires (forall ix :: ix in snap.indices) && |v.cursors| <= SCAN_LIMIT && v.queue == []
    ensures RoundsLeft(snap.indices[ix], v) <= FreshRounds(snap)
  {
    var n, k := |snap.indices[ix]|, |v.cursors|;
    RankSumAtMost(snap.indices[ix], v.cursors);
    assert n <= AllRows(snap);
    ProductAtMost(k, n, SCAN_LIMIT, AllRows(snap));
  }

  lemma ProductAtMost(a: nat, b: nat, c: nat, d: nat)
    requires a <= c && b <= d
    ensures a * b <= c * d
  {
    assert a * b <= c * b;
    assert c * b <= c * d;
  }

  lemma RoundsAreLeft(f: Filter, plan: Plan, rows: seq<Row>, v: View, keep: Table, hist: Table)
    requires ScanInv(f, plan, v, keep, hist)
    ensures RoundsLeft(rows, v) >= 0
  {
  }

  function FreshSlices(snap: Snapshot, filters: int): (n: nat)
    requires forall ix :: ix in snap.indices
  {
    if filters <= 0 then 0 else FreshSlices(snap, filters - 1) + FreshRounds(snap) + 1
  }

  /** At any time, a query has sent only events that were asked for and not newer than
      its start, each once. */
  lemma SentSoFar(q: DBQuery, keep: Table, hist: Table)
    requires q.Inv(keep, hist)
    ensures NoRepeats(q.sent)
    ensures forall l :: l in q.sent ==> l <= q.latestEventId && l in hist && GroupMatches(q.filters, hist[l])
  {
    forall l | l in q.sent ensures l <= q.latestEventId && l in hist && GroupMatches(q.filters, hist[l]) {
      AppendHas(InOrder(q.tops), q.curr, l);
      InOrderHas(q.tops, l);
      if l in q.curr {
        assert Wanted(q.filters[q.filterGroupIndex], hist, q.latestEventId, l);
      } else {
        var i :| 0 <= i < |q.tops| && l in q.tops[i];
        assert Wanted(q.filters[i], hist, q.latestEventId, l);
      }
    }
  }

  /** What a paused query has to find may shrink, and what it may have found may grow. */
  lemma QueryForward(q: DBQuery, keep: Table, hist: Table, keep': Table, hist': Table)
    requires q.Inv(keep, hist) && Within(keep, hist) && Within(keep', keep) && Within(hist, hist')
    ensures q.Inv(keep', hist')
  {
    forall i | 0 <= i < q.filterGroupIndex ensures TopOf(q.tops[i], q.filters[i], keep', hist', q.latestEventId) {
      TopForward(q.tops[i], q.filters[i], keep, hist, keep', hist', q.latestEventId);
    }
    RecordedForward(q.sentEventsFull, q.sentEventsCurr, q.sent, Append(InOrder(q.tops), q.curr), q.curr, keep, hist, keep', hist');
    if q.scanner != null {
      ScanForward(q.scanner.f, q.scanner.plan, q.scanner.Seen(), keep, hist, keep', hist');
      CurrentForward(q.curr, q.scanner.f, q.scanner.visited, keep, hist, keep', hist', q.latestEventId);
    }
  }

  lemma TopForward(list: seq<nat>, f: Filter, keep: Table, hist: Table, keep': Table, hist': Table, latest: nat)
    requires TopOf(list, f, keep, hist, latest) && Within(keep', keep) && Within(hist, hist')
    ensures TopOf(list, f, keep', hist', latest)
  {
    DescendingForward(list, hist, hist');
  }

  lemma DescendingForward(list: seq<nat>, hist: Table, hist': Table)
    requires Descending(list, hist) && Within(hist, hist')
    ensures Descending(list, hist')
  {
    forall i, j | 0 <= i < j < |list| ensures NewerEvent(hist', list[i], list[j]) {
      assert list[i] in list && list[j] in list && NewerEvent(hist, list[i], list[j]);
    }
  }

  lemma CurrentForward(curr: seq<nat>, f: Filter, visited: set<nat>, keep: Table, hist: Table, keep': Table, hist': Table, latest: nat)
    requires Current(curr, f, visited, keep, hist, latest) && Within(keep', keep) && Within(hist, hist')
    ensures Current(curr, f, visited, keep', hist', latest)
  {
    DescendingForward(curr, hist, hist');
  }

  lemma RecordedForward(full: set<nat>, currSet: set<nat>, sent: seq<nat>, order: seq<nat>, curr: seq<nat>, keep: Table, hist: Table, keep': Table, hist': Table)
    requires RecordedBy(full, currSet, sent, order, curr, keep, hist)
    requires Within(keep, hist) && Within(keep', keep) && Within(hist, hist')
    ensures RecordedBy(full, currSet, sent, order, curr, keep', hist')
  {
    if keep' == hist' { assert keep == hist; }
  }

  lemma SendsThen(first: seq<nat>, before: seq<nat>, after: seq<nat>, db: Table)
    requires Sends(first, before, db) && Sends(before, after, db)
    ensures Sends(first, after, db)
  {
    assert after[..|first|] == before[..|first|];
    forall i | |first| <= i < |after| ensures after[i] in db {
      if i < |before| { assert after[i] == before[i]; }
    }
  }

  lemma SendsMore(first: seq<nat>, before: seq<nat>, after: seq<nat>, db: Table)
    requires Sends(first, before, db)
    requires after == before || (|after| == |before| + 1 && after[..|before|] == before && after[|before|] in db)
    ensures Sends(first, after, db)
  {
    assert after[..|first|] == before[..|first|];
  }

  /** Output only grows, by events that are in the snapshot. */
  ghost predicate Sends(before: seq<nat>, after: seq<nat>, db: Table) {
    && |before| <= |after| && after[..|before|] == before
    && forall i :: |before| <= i < |after| ==> after[i] in db
  }

  // ---------------------------------------------------------------------------
  // Whole queries

  /** One time slice: the snapshot it reads and its clock. */
  datatype Slice = Slice(snap: Snapshot, clock: Clock)

  /** What a query has sent answers its filter group. */
  ghost predicate Answered(filters: seq<Filter>, latest: nat, sent: seq<nat>, keep: Table, hist: Table) {
    exists tops: seq<seq<nat>> :: AnsweredBy(tops, filters, latest, sent, keep, hist)
  }

  ghost predicate AnsweredBy(tops: seq<seq<nat>>, filters: seq<Filter>, latest: nat, sent: seq<nat>, keep: Table, hist: Table) {
    && |tops| == |filters|
    && (forall i :: 0 <= i < |tops| ==> TopOf(tops[i], filters[i], keep, hist, latest))
    && SentOk(sent, InOrder(tops), keep, hist)
  }

  ghost predicate SnapshotBetween(s: Snapshot, keep: Table, hist: Table) {
    SnapshotOk(s) && Within(keep, s.events) && Within(s.events, hist)
  }

  /** A query from start to end: first a slice for each of `slices`, then as many as it
      takes on the snapshot `last`, whatever the clock says in each of them. Slice by
      slice it sends a batch of events that are stored at that moment, and together
      they answer the filter group. */
  method RunQuery(filters: seq<Filter>, latestEventId: nat, slices: seq<Slice>, last: Snapshot, clocks: nat -> Clock,
                  ghost keep: Table, ghost hist: Table)
      returns (batches: seq<seq<nat>>)
    requires forall i :: 0 <= i < |filters| ==> Runnable(filters[i])
    requires forall i :: 0 <= i < |slices| ==> SnapshotBetween(slices[i].snap, keep, hist)
    requires SnapshotBetween(last, keep, hist)
    ensures |batches| > |slices| && (slices == [] ==> |batches| <= FreshSlices(last, |filters|) + 1)
    ensures forall i :: 0 <= i < |batches| ==> Stored(batches[i], if i < |slices| then slices[i].snap.events else last.events)
    ensures Answered(filters, latestEventId, Flatten(batches), keep, hist)
  {
    var q := new DBQuery(filters, latestEventId);
    assert q.Inv(keep, hist) && q.SlicesLeft(last) == FreshSlices(last, |filters|);
    batches := RunSlices(q, slices, last, keep, hist);
    batches := RunToEnd(q, slices, last, clocks, batches, keep, hist);
  }

  /** The slices before. */
  method RunSlices(q: DBQuery, slices: seq<Slice>, ghost last: Snapshot, ghost keep: Table, ghost hist: Table) returns (batches: seq<seq<nat>>)
    requires q.Inv(keep, hist) && q.sent == []
    requires forall i :: 0 <= i < |slices| ==> SnapshotBetween(slices[i].snap, keep, hist)
    modifies q, q.scanner
    ensures q.Inv(keep, hist) && (q.scanner == null || q.scanner == old(q.scanner) || fresh(q.scanner))
    ensures |batches| == |slices| && Flatten(batches) == q.sent && EachStored(batches, slices, last)
    ensures slices == [] ==> q.scanner == old(q.scanner) && q.filterGroupIndex == old(q.filterGroupIndex)
  {
    batches := [];
    for i := 0 to |slices|
      invariant q.Inv(keep, hist) && (q.scanner == null || q.scanner == old(q.scanner) || fresh(q.scanner))
      invariant |batches| == i && Flatten(batches) == q.sent
      invariant EachStored(batches, slices, last)
      invariant i == 0 ==> q.scanner == old(q.scanner) && q.filterGroupIndex == old(q.filterGroupIndex)
    {
      ghost var before := batches;
      var _, more := RunSlice(q, slices[i].snap, slices[i].clock, batches, keep, hist);
      batches := more;
      OneMoreStored(before, batches, slices, last);
    }
  }

  /** The slices on the last snapshot. */
  method RunToEnd(q: DBQuery, slices: seq<Slice>, last: Snapshot, clocks: nat -> Clock, batches0: seq<seq<nat>>, ghost keep: Table, ghost hist: Table)
      returns (batches: seq<seq<nat>>)
    requires q.Inv(keep, hist) && SnapshotBetween(last, keep, hist)
    requires Flatten(batches0) == q.sent && |batches0| == |slices| && EachStored(batches0, slices, last)
    modifies q, q.scanner
    ensures 0 < |batches| - |slices| <= old(q.SlicesLeft(last)) + 1 && EachStored(batches, slices, last)
    ensures Flatten(batches) == q.sent && Answered(q.filters, q.latestEventId, q.sent, keep, hist)
  {
    batches := batches0;
    SlicesAreLeft(q, last, keep, hist);
    var complete := false;
    while !complete
      invariant q.Inv(keep, hist) && (q.scanner == null || q.scanner == old(q.scanner) || fresh(q.scanner))
      invariant Flatten(batches) == q.sent && |batches| >= |slices| && EachStored(batches, slices, last)
      invariant q.SlicesLeft(last) >= 0
      invariant if complete then |batches| > |slices| && |batches| - |slices| <= old(q.SlicesLeft(last)) + 1
                else q.SlicesLeft(last) + |batches| - |slices| <= old(q.SlicesLeft(last))
      invariant complete ==> Answered(q.filters, q.latestEventId, q.sent, keep, hist)
      decreases !complete, q.SlicesLeft(last)
    {
      ghost var before := batches;
      complete, batches := RunSlice(q, last, clocks(|batches| - |slices|), batches, keep, hist);
      OneMoreStored(before, batches, slices, last);
      SlicesAreLeft(q, last, keep, hist);
    }
  }

  lemma SlicesAreLeft(q: DBQuery, snap: Snapshot, keep: Table, hist: Table)
    requires q.Inv(keep, hist) && forall ix :: ix in snap.indices
    ensures q.SlicesLeft(snap) >= 0
  {
    if q.scanner != null {
      RoundsAreLeft(q.scanner.f, q.scanner.plan, snap.indices[q.scanner.plan.index], q.scanner.Seen(), keep, hist);
    }
  }

  /** What each slice sent was stored at the time. */
  ghost predicate EachStored(batches: seq<seq<nat>>, slices: seq<Slice>, last: Snapshot) {
    forall k :: 0 <= k < |batches| ==> Stored(batches[k], if k < |slices| then slices[k].snap.events else last.events)
  }

  lemma OneMoreStored(batches: seq<seq<nat>>, batches': seq<seq<nat>>, slices: seq<Slice>, last: Snapshot)
    requires |batches'| == |batches| + 1 && batches'[..|batches|] == batches && EachStored(batches, slices, last)
    requires Stored(batches'[|batches|], if |batches| < |slices| then slices[|batches|].snap.events else last.events)
    ensures EachStored(batches', slices, last)
  {
    forall k | 0 <= k < |batches'| ensures Stored(batches'[k], if k < |slices| then slices[k].snap.events else last.events) {
      if k < |batches| { assert batches'[k] == batches[k]; }
    }
  }

  /** A query that is through with its filters has answered them. */
  lemma QueryAnswers(q: DBQuery, keep: Table, hist: Table)
    requires q.Recorded(keep, hist) && q.Finished(keep, hist) && q.curr == [] && q.filterGroupIndex == |q.filters|
    ensures Answered(q.filters, q.latestEventId, q.sent, keep, hist)
  {
    assert Append(InOrder(q.tops), q.curr) == InOrder(q.tops);
    assert AnsweredBy(q.tops, q.filters, q.latestEventId, q.sent, keep, hist);
  }

  /** One slice, and what it sent. */
  method RunSlice(q: DBQuery, snap: Snapshot, clock: Clock, batches: seq<seq<nat>>, ghost keep: Table, ghost hist: Table)
      returns (complete: bool, batches': seq<seq<nat>>)
    requires q.Inv(keep, hist) && SnapshotBetween(snap, keep, hist) && Flatten(batches) == q.sent
    modifies q, q.scanner
    ensures q.Inv(keep, hist) && Flatten(batches') == q.sent
    ensures q.scanner == null || q.scanner == old(q.scanner) || fresh(q.scanner)
    ensures |batches'| == |batches| + 1 && batches'[..|batches|] == batches && Stored(batches'[|batches|], snap.events)
    ensures !complete ==> q.SlicesLeft(snap) < old(q.SlicesLeft(snap))
    ensures complete ==> Answered(q.filters, q.latestEventId, q.sent, keep, hist)
  {
    var before := q.sent;
    complete := ProcessOnce(q, snap, clock, keep, hist);
    batches' := AddBatch(batches, before, q.sent, snap.events);
  }

  method ProcessOnce(q: DBQuery, snap: Snapshot, clock: Clock, ghost keep: Table, ghost hist: Table) returns (complete: bool)
    requires q.Inv(keep, hist) && SnapshotBetween(snap, keep, hist)
    modifies q, q.scanner
    ensures q.Inv(keep, hist) && Sends(old(q.sent), q.sent, snap.events)
    ensures q.scanner == null || q.scanner == old(q.scanner) || fresh(q.scanner)
    ensures !complete ==> q.SlicesLeft(snap) < old(q.SlicesLeft(snap))
    ensures complete ==> Answered(q.filters, q.latestEventId, q.sent, keep, hist)
  {
    complete := q.Process(snap, clock, keep, hist);
    if complete {
      assert q.scanner == null;
      QueryAnswers(q, keep, hist);
    }
  }

  method AddBatch(batches: seq<seq<nat>>, before: seq<nat>, after: seq<nat>, ghost db: Table) returns (r: seq<seq<nat>>)
    requires Flatten(batches) == before && Sends(before, after, db)
    ensures |r| == |batches| + 1 && r[..|batches|] == batches && Stored(r[|batches|], db) && Flatten(r) == after
  {
    r := batches + [after[|before|..]];
    assert r[..|r| - 1] == batches;
    assert after == before + after[|before|..];
  }

  predicate Stored(batch: seq<nat>, db: Table) {
    forall l :: l in batch ==> l in db
  }

  /** On a single snapshot, whatever the pauses, a query sends exactly the
      brute-force answers of its filters in order, each event once. */
  lemma SnapshotAnswer(filters: seq<Filter>, latest: nat, sent: seq<nat>, db: Table)
    requires Answered(filters, latest, sent, db, db)
    ensures sent == InOrder(seq(|filters|, i requires 0 <= i < |filters| => Answer(filters[i], db, latest)))
  {
    var tops: seq<seq<nat>> :| AnsweredBy(tops, filters, latest, sent, db, db);
    forall i | 0 <= i < |filters| ensures tops[i] == Answer(filters[i], db, latest) {
      TopOfIsAnswer(tops[i], filters[i], db, latest);
    }
    assert tops == seq(|filters|, i requires 0 <= i < |filters| => Answer(filters[i], db, latest));
  }

  lemma {:induction false} AppendNoRepeats(acc: seq<nat>, list: seq<nat>)
    requires NoRepeats(acc)
    ensures NoRepeats(Append(acc, list))
    decreases |list|
  {
    if list != [] { AppendNoRepeats(acc, list[..|list| - 1]); }
  }

  lemma {:induction false} InOrderNoRepeats(lists: seq<seq<nat>>)
    ensures NoRepeats(InOrder(lists))
    decreases |lists|
  {
    if lists != [] {
      InOrderNoRepeats(lists[..|lists| - 1]);
      AppendNoRepeats(InOrder(lists[..|lists| - 1]), lists[|lists| - 1]);
    }
  }

  ghost function Answers(filters: seq<Filter>, db: Table, latest: nat): (r: seq<seq<nat>>) {
    seq(|filters|, i requires 0 <= i < |filters| => Answer(filters[i], db, latest))
  }

  /** On a single snapshot a query can end in one way, and can end. */
  lemma AnswerExists(filters: seq<Filter>, latest: nat, db: Table)
    ensures Answered(filters, latest, InOrder(Answers(filters, db, latest)), db, db)
  {
    var tops := Answers(filters, db, latest);
    forall i | 0 <= i < |tops| ensures TopOf(tops[i], filters[i], db, db, latest) { AnswerIsTop(filters[i], db, latest); }
    InOrderNoRepeats(tops);
    forall l | l in InOrder(tops) ensures l in db {
      InOrderHas(tops, l);
      var i :| 0 <= i < |tops| && l in tops[i];
      assert Wanted(filters[i], db, latest, l);
    }
    assert AnsweredBy(tops, filters, latest, InOrder(tops), db, db);
  }

  /** The matching events that come before event `l` in the answer to a filter. */
  ghost function Ahead(f: Filter, hist: Table, latest: nat, l: nat): (s: set<nat>)
    requires l in hist
  {
    set m | m in hist && m != l && Wanted(f, hist, latest, m) && NewerEvent(hist, m, l)
  }

  /** A full list of events that all come before `l` is as long as there are such
      events at most. */
  lemma AheadOf(list: seq<nat>, f: Filter, hist: Table, latest: nat, l: nat)
    requires l in hist && Descending(list, hist)
    requires forall m :: m in list ==> m != l && Wanted(f, hist, latest, m) && NewerEvent(hist, m, l)
    ensures |list| <= |Ahead(f, hist, latest, l)|
  {
    var some := map m | m in Ahead(f, hist, latest, l) :: hist[m];
    forall i, j | 0 <= i < j < |list| ensures NewerEvent(some, list[i], list[j]) {
      assert list[i] in list && list[j] in list && NewerEvent(hist, list[i], list[j]);
    }
    DescendingFits(list, some);
    assert some.Keys == Ahead(f, hist, latest, l);
  }

  /** While the database changes under a query, it sends no event twice, none newer
      than its start, none that no filter asked for, and, for every filter, each
      matching event that is stored throughout and has fewer than `limit` matching
      events ahead of it. */
  lemma ChangingAnswer(filters: seq<Filter>, latest: nat, sent: seq<nat>, keep: Table, hist: Table)
    requires Answered(filters, latest, sent, keep, hist) && Within(keep, hist)
    ensures NoRepeats(sent)
    ensures forall l :: l in sent ==> l in hist && l <= latest && GroupMatches(filters, hist[l])
    ensures forall l, i :: 0 <= i < |filters| && Wanted(filters[i], keep, latest, l) && |Ahead(filters[i], hist, latest, l)| < filters[i].limit ==>
      l in sent
  {
    var tops: seq<seq<nat>> :| AnsweredBy(tops, filters, latest, sent, keep, hist);
    forall l | l in sent ensures l in hist && l <= latest && GroupMatches(filters, hist[l]) {
      InOrderHas(tops, l);
      var i :| 0 <= i < |tops| && l in tops[i];
      assert Wanted(filters[i], hist, latest, l);
    }
    forall l, i | 0 <= i < |filters| && Wanted(filters[i], keep, latest, l) && |Ahead(filters[i], hist, latest, l)| < filters[i].limit ensures l in sent {
      FoundInTop(tops[i], filters[i], latest, keep, hist, l);
      InOrderHas(tops, l);
    }
  }

  lemma FoundInTop(list: seq<nat>, f: Filter, latest: nat, keep: Table, hist: Table, l: nat)
    requires TopOf(list, f, keep, hist, latest) && Within(keep, hist)
    requires Wanted(f, keep, latest, l) && |Ahead(f, hist, latest, l)| < f.limit
    ensures l in list
  {
    if l !in list { AheadOf(list, f, hist, latest, l); }
  }

  lemma {:induction false} DescendingFits(list: seq<nat>, hist: Table)
    requires Descending(list, hist)
    ensures |list| <= |hist|
    decreases |list|
  {
    if list != [] {
      var l := list[0];
      var rest := map k | k in hist && k != l :: hist[k];
      assert l in list;
      forall k | k in list[1..] ensures k in rest { var i :| 1 <= i < |list| && list[i] == k; assert NewerEvent(hist, l, k); }
      forall i, j | 0 <= i < j < |list[1..]| ensures NewerEvent(rest, list[1..][i], list[1..][j]) {
        assert NewerEvent(hist, list[i + 1], list[j + 1]);
      }
      DescendingFits(list[1..], rest);
      assert rest.Keys == hist.Keys - {l};
      assert |rest.Keys| == |hist.Keys| - 1;
    }
  }
}
