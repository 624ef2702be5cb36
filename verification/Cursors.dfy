/** Candidates, the candidate queue, and the resumable index cursors of a scan
    (CandidateEvent and ScanCursor, src/DBQuery.h). */
module Cursors {
  import opened Results
  import opened Events
  import opened Filters
  import opened Plans

  // ---------------------------------------------------------------------------
  // Candidates

  /** The bit packing of CandidateEvent: the scan index above 40 bits of time. */
  function Pack(created: bv64, scanIndex: bv64): (packed: bv64) {
    (scanIndex << 40) | created
  }

  function UnpackCreated(packed: bv64): (created: bv64) {
    packed & 0xFF_FFFF_FFFF
  }

  function UnpackScanIndex(packed: bv64): (scanIndex: bv64) {
    packed >> 40
  }

  /** Packing loses nothing exactly when the time has at most 40 bits and the scan
      index at most 24. */
  lemma PackingExact(created: bv64, scanIndex: bv64)
    ensures
      && UnpackCreated(Pack(created, scanIndex)) == created
      && UnpackScanIndex(Pack(created, scanIndex)) == scanIndex
      <==> created < 0x100_0000_0000 && scanIndex < 0x100_0000
  {
  }

  const TIME_LIMIT := 0x100_0000_0000
  const SCAN_LIMIT := 0x100_0000

  /** A candidate, as its accessors show it. */
  datatype Candidate = Candidate(levId: nat, created: nat, scanIndex: nat)

  /** Packs a candidate and reads it back through its accessors. Below 40 bits of
      time the two parts do not overlap, so `|` is addition. */
  function MakeCandidate(levId: nat, created: nat, scanIndex: nat): (c: Candidate)
    requires created < TIME_LIMIT && scanIndex < SCAN_LIMIT
    ensures c == Candidate(levId, created, scanIndex)
  {
    var packed := scanIndex * TIME_LIMIT + created;
    Candidate(levId, packed % TIME_LIMIT, packed / TIME_LIMIT)
  }

  /** The comparison of the queue: newest first, larger levId among equal times. */
  predicate NewerAt(created: nat, levId: nat, created': nat, levId': nat) {
    created > created' || (created == created' && levId > levId')
  }

  predicate Newer(a: Candidate, b: Candidate) {
    NewerAt(a.created, a.levId, b.created, b.levId)
  }

  predicate SortedQueue(q: seq<Candidate>) {
    forall i, j :: 0 <= i < j < |q| ==> !Newer(q[j], q[i])
  }

  predicate StrictlySorted(q: seq<Candidate>) {
    forall i, j :: 0 <= i < j < |q| ==> Newer(q[i], q[j])
  }

  /** How many queued candidates came from cursor `j`. */
  function Count(q: seq<Candidate>, j: nat): (n: nat)
    ensures n == 0 <==> forall c :: c in q ==> c.scanIndex != j
  {
    if q == [] then 0 else (if q[0].scanIndex == j then 1 else 0) + Count(q[1..], j)
  }

  lemma {:induction false} CountConcat(a: seq<Candidate>, b: seq<Candidate>, j: nat)
    ensures Count(a + b, j) == Count(a, j) + Count(b, j)
    decreases |a|
  {
    if a == [] {
      assert a + b == b;
    } else {
      assert (a + b)[1..] == a[1..] + b;
      CountConcat(a[1..], b, j);
    }
  }

  lemma {:induction false} CountUniform(q: seq<Candidate>, i: nat, j: nat)
    requires forall c :: c in q ==> c.scanIndex == i
    ensures Count(q, j) == if i == j then |q| else 0
    decreases |q|
  {
    if q != [] {
      assert q[0] in q && forall c :: c in q[1..] ==> c in q;
      CountUniform(q[1..], i, j);
    }
  }

  /** `std::merge`: both inputs sorted, every candidate kept. */
  function MergeQueues(a: seq<Candidate>, b: seq<Candidate>): (r: seq<Candidate>)
    requires SortedQueue(a) && SortedQueue(b)
    ensures SortedQueue(r) && |r| == |a| + |b|
    ensures forall c :: c in r <==> c in a || c in b
    ensures forall j: nat :: Count(r, j) == Count(a, j) + Count(b, j)
    decreases |a| + |b|
  {
    if a == [] then b
    else if b == [] then a
    else if Newer(b[0], a[0]) then
      var t := MergeQueues(a, b[1..]);
      assert forall k :: 0 <= k < |t| ==> t[k] in t;
      [b[0]] + t
    else
      var t := MergeQueues(a[1..], b);
      assert forall k :: 0 <= k < |t| ==> t[k] in t;
      [a[0]] + t
  }

  /** `std::sort` on the queue once every cursor has been read. */
  function SortQueue(q: seq<Candidate>): (r: seq<Candidate>)
    ensures SortedQueue(r) && |r| == |q|
    ensures forall c :: c in r <==> c in q
    ensures forall j: nat :: Count(r, j) == Count(q, j)
  {
    if q == [] then [] else MergeQueues([q[0]], SortQueue(q[1..]))
  }

  // ---------------------------------------------------------------------------
  // Cursors

  /** A cursor: where to resume in its index (nowhere once it is exhausted), the
      key it searches, and how many of its candidates are still queued. */
  datatype Cursor = Cursor(resume: Option<Row>, search: Major, outstanding: nat)

  /** The cursor has yet to pass the position of this row of its search key. */
  predicate Pending(c: Cursor, created: nat, levId: nat) {
    c.resume.Some? && RowLeq(Row(c.search, created, levId), c.resume.value)
  }

  predicate CursorOk(c: Cursor) {
    c.resume.Some? ==> c.resume.value.major == c.search || MajorLess(c.resume.value.major, c.search)
  }

  /** The time range a cursor enforces itself; a bound of zero counts as absent. */
  predicate InScanRange(f: Filter, created: nat) {
    && (f.since != 0 ==> f.since <= created)
    && (f.until != 0 ==> created <= f.until)
  }

  /** Number of rows at or below a position. */
  ghost function Rank(rows: seq<Row>, pos: Row): (n: nat)
    ensures n <= |rows|
  {
    if rows == [] then 0
    else Rank(rows[..|rows| - 1], pos) + (if RowLeq(rows[|rows| - 1], pos) then 1 else 0)
  }

  ghost function RankAt(rows: seq<Row>, resume: Option<Row>): (n: nat) {
    if resume.Some? then Rank(rows, resume.value) else 0
  }

  /** How many rows are at or below the cursor's position. */
  ghost function CursorRank(rows: seq<Row>, c: Cursor): (n: nat) {
    RankAt(rows, c.resume)
  }

  /** In a sorted index the rows at or below a position are a prefix. */
  lemma {:induction false} RankSplits(rows: seq<Row>, pos: Row, k: nat)
    requires SortedRows(rows) && k < |rows|
    ensures k < Rank(rows, pos) <==> RowLeq(rows[k], pos)
    decreases |rows|
  {
    var n := |rows| - 1;
    if k < n {
      RankSplits(rows[..n], pos, k);
      if RowLess(rows[n], pos) { RowLessTransitive(rows[k], rows[n], pos); }
    } else if n > 0 {
      RankSplits(rows[..n], pos, n - 1);
      if RowLess(rows[n], pos) { RowLessTransitive(rows[n - 1], rows[n], pos); }
    }
  }

  /** Positions a reverse iteration of generic_foreachFull: just behind the last
      row at or below `pos`. */
  method SeekReverse(rows: seq<Row>, pos: Row) returns (i: nat)
    requires SortedRows(rows)
    ensures i == Rank(rows, pos)
    ensures forall k :: 0 <= k < i ==> RowLeq(rows[k], pos)
    ensures forall k :: i <= k < |rows| ==> RowLess(pos, rows[k])
  {
    i := |rows|;
    while i > 0 && RowLess(pos, rows[i - 1])
      invariant i <= |rows|
      invariant forall k :: i <= k < |rows| ==> RowLess(pos, rows[k])
    {
      i := i - 1;
    }
    forall k | 0 <= k < i ensures RowLeq(rows[k], pos) {
      RowLessTotal(rows[i - 1], pos);
      if k < i - 1 && RowLess(rows[i - 1], pos) { RowLessTransitive(rows[k], rows[i - 1], pos); }
    }
    if i > 0 { RankSplits(rows, pos, i - 1); }
    if i < |rows| {
      RankSplits(rows, pos, i);
      RowLessAsymmetric(pos, rows[i]);
    }
  }

  predicate RowsInRange(rows: seq<Row>) {
    forall k :: 0 <= k < |rows| ==> 1 <= rows[k].levId <= MAX_U64 && rows[k].created < TIME_LIMIT
  }

  /** The rows of index `rows` from position `i` up to `start` have been read:
      `out` holds rows of the search key, newest first, all above position `i`,
      and no row in the time range has been skipped. */
  ghost predicate ReadDown(rows: seq<Row>, f: Filter, search: Major, scanIndex: nat, start: Row, out: seq<Candidate>, i: nat)
    requires i <= |rows|
  {
    && StrictlySorted(out)
    && (forall c :: c in out ==>
          && Row(search, c.created, c.levId) in rows
          && c.scanIndex == scanIndex
          && RowLeq(Row(search, c.created, c.levId), start)
          && forall k :: 0 <= k < i ==> RowLess(rows[k], Row(search, c.created, c.levId)))
    && (forall k :: i <= k < |rows| && rows[k].major == search && InScanRange(f, rows[k].created) && RowLeq(rows[k], start) ==>
          Candidate(rows[k].levId, rows[k].created, scanIndex) in out)
  }

  /** The cursor's position is where the reading stopped. */
  ghost predicate StoppedAt(rows: seq<Row>, f: Filter, search: Major, scanIndex: nat, start: Row, out: seq<Candidate>, resume: Option<Row>) {
    && ReadDown(rows, f, search, scanIndex, start, out, if resume.Some? then Rank(rows, resume.value) else 0)
    && (resume.Some? ==>
          && CursorOk(Cursor(resume, search, 0))
          && RowLeq(resume.value, start)
          && forall c :: c in out ==> RowLess(resume.value, Row(search, c.created, c.levId)))
  }

  /** Stopping at a position that lies below everything read, with nothing of the
      search key in range between it and row `i`. */
  lemma StopAt(rows: seq<Row>, f: Filter, search: Major, scanIndex: nat, start: Row, out: seq<Candidate>, i: nat, resume: Row)
    requires SortedRows(rows) && 0 < i <= |rows| && ReadDown(rows, f, search, scanIndex, start, out, i)
    requires RowLeq(rows[i - 1], start) && RowLeq(resume, rows[i - 1])
    requires CursorOk(Cursor(Some(resume), search, 0))
    requires forall k :: 0 <= k < i && rows[k].major == search && InScanRange(f, rows[k].created) ==> RowLeq(rows[k], resume)
    ensures StoppedAt(rows, f, search, scanIndex, start, out, Some(resume))
    ensures Rank(rows, resume) <= i
    ensures resume != rows[i - 1] ==> Rank(rows, resume) < i
  {
    var j := Rank(rows, resume);
    RankSplits(rows, resume, i - 1);
    if resume != rows[i - 1] { RowLessAsymmetric(resume, rows[i - 1]); }
    if i < |rows| {
      RankSplits(rows, resume, i);
      if resume == rows[i - 1] { RowLessAsymmetric(rows[i - 1], rows[i]); }
      else { RowLessTransitive(resume, rows[i - 1], rows[i]); RowLessAsymmetric(resume, rows[i]); }
    }
    assert j <= i;
    forall k | j <= k < |rows| && rows[k].major == search && InScanRange(f, rows[k].created) && RowLeq(rows[k], start)
      ensures Candidate(rows[k].levId, rows[k].created, scanIndex) in out
    {
      RankSplits(rows, resume, k);
    }
    forall c | c in out ensures RowLess(resume, Row(search, c.created, c.levId)) {
      assert RowLess(rows[i - 1], Row(search, c.created, c.levId));
      if resume != rows[i - 1] { RowLessTransitive(resume, rows[i - 1], Row(search, c.created, c.levId)); }
    }
    RowLeqTransitive(resume, rows[i - 1], start);
  }

  /** Below a row of another key there is no row of the search key any more. */
  lemma KeyExhausted(rows: seq<Row>, f: Filter, search: Major, scanIndex: nat, start: Row, out: seq<Candidate>, i: nat)
    requires SortedRows(rows) && 0 < i <= |rows| && ReadDown(rows, f, search, scanIndex, start, out, i)
    requires RowLeq(rows[i - 1], start) && CursorOk(Cursor(Some(start), search, 0)) && rows[i - 1].major != search
    ensures StoppedAt(rows, f, search, scanIndex, start, out, None)
  {
    assert MajorLess(rows[i - 1].major, search) by {
      if MajorLess(rows[i - 1].major, start.major) && MajorLess(start.major, search) {
        MajorLessTransitive(rows[i - 1].major, start.major, search);
      }
    }
    forall k | 0 <= k < i ensures rows[k].major != search {
      MajorLessAsymmetric(rows[i - 1].major, search);
    }
  }

  /** One call of generic_foreachFull by collect, in reverse from row `i0 - 1`. */
  method ReadRun(rows: seq<Row>, f: Filter, search: Major, scanIndex: nat, ghost start: Row, i0: nat, limit0: nat, out0: seq<Candidate>)
      returns (resume: Option<Row>, limit: nat, out: seq<Candidate>)
    requires SortedRows(rows) && RowsInRange(rows) && i0 <= |rows| && limit0 > 0 && scanIndex < SCAN_LIMIT
    requires ReadDown(rows, f, search, scanIndex, start, out0, i0)
    requires i0 > 0 ==> RowLeq(rows[i0 - 1], start)
    requires CursorOk(Cursor(Some(start), search, 0))
    ensures StoppedAt(rows, f, search, scanIndex, start, out, resume)
    ensures |out| + limit == |out0| + limit0
    ensures RankAt(rows, resume) + |out| <= i0 + |out0|
    ensures resume.Some? ==> Rank(rows, resume.value) <= i0 && (limit == 0 || Rank(rows, resume.value) < i0)
  {
    var i := i0;
    limit, out := limit0, out0;
    while i > 0
      invariant 0 <= i <= i0
      invariant ReadDown(rows, f, search, scanIndex, start, out, i)
      invariant i > 0 ==> RowLeq(rows[i - 1], start)
      invariant |out| + limit == |out0| + limit0 && i + |out| == i0 + |out0|
    {
      var k := rows[i - 1];
      if limit == 0 {
        resume := Some(k);
        assert CursorOk(Cursor(resume, search, 0)) by { BelowStart(k, start, search); }
        StopAt(rows, f, search, scanIndex, start, out, i, k);
        return;
      }
      if k.major != search {
        KeyExhausted(rows, f, search, scanIndex, start, out, i);
        resume := None;
        return;
      }
      if f.since != 0 && k.created < f.since {
        resume := Some(Row(k.major, 0, 0));
        assert forall m :: 0 <= m < i - 1 ==> RowLess(rows[m], k);
        assert forall m :: 0 <= m < i && rows[m].major == search ==> rows[m].created <= k.created by { LessIrreflexiveMajor(search); }
        StopAt(rows, f, search, scanIndex, start, out, i, resume.value);
        return;
      }
      if f.until != 0 && k.created > f.until {
        resume := Some(Row(k.major, f.until, MAX_U64));
        StopAt(rows, f, search, scanIndex, start, out, i, resume.value);
        return;
      }
      ReadOne(rows, f, search, scanIndex, start, out, i);
      out := out + [MakeCandidate(k.levId, k.created, scanIndex)];
      limit := limit - 1;
      i := i - 1;
      if i > 0 { RowLeqTransitive(rows[i - 1], k, start); }
    }
    resume := None;
  }

  lemma LessIrreflexiveMajor(m: Major)
    ensures !MajorLess(m, m)
  {
    if MajorLess(m, m) { MajorLessAsymmetric(m, m); }
  }

  lemma BelowStart(k: Row, start: Row, search: Major)
    requires RowLeq(k, start) && CursorOk(Cursor(Some(start), search, 0))
    ensures CursorOk(Cursor(Some(k), search, 0))
  {
    if MajorLess(k.major, start.major) && MajorLess(start.major, search) {
      MajorLessTransitive(k.major, start.major, search);
    }
  }

  /** Reading row `i - 1` of the search key extends the output downwards. */
  lemma ReadOne(rows: seq<Row>, f: Filter, search: Major, scanIndex: nat, start: Row, out: seq<Candidate>, i: nat)
    requires SortedRows(rows) && 0 < i <= |rows| && ReadDown(rows, f, search, scanIndex, start, out, i)
    requires RowLeq(rows[i - 1], start) && rows[i - 1].major == search
    ensures ReadDown(rows, f, search, scanIndex, start, out + [Candidate(rows[i - 1].levId, rows[i - 1].created, scanIndex)], i - 1)
  {
    var k := rows[i - 1];
    var c := Candidate(k.levId, k.created, scanIndex);
    assert Row(search, c.created, c.levId) == k;
    forall m | 0 <= m < |out| ensures Newer(out[m], c) {
      LessIrreflexiveMajor(search);
      assert RowLess(k, Row(search, out[m].created, out[m].levId));
    }
  }

  /** How a cursor moves when it is read: the candidates are rows of its key that
      were pending, newest first; a pending row in range is now a candidate or
      still pending; everything still pending is older than every candidate. */
  ghost predicate Moved(rows: seq<Row>, f: Filter, c: Cursor, scanIndex: nat, c': Cursor, out: seq<Candidate>) {
    && c'.search == c.search && CursorOk(c')
    && StrictlySorted(out)
    && (forall o :: o in out ==>
          Row(c.search, o.created, o.levId) in rows && o.scanIndex == scanIndex && Pending(c, o.created, o.levId))
    && (forall created, levId :: Pending(c', created, levId) ==> Pending(c, created, levId))
    && (forall o, created, levId :: o in out && Pending(c', created, levId) ==> NewerAt(o.created, o.levId, created, levId))
    && (forall r :: r in rows && r.major == c.search && InScanRange(f, r.created) && Pending(c, r.created, r.levId) ==>
          Candidate(r.levId, r.created, scanIndex) in out || Pending(c', r.created, r.levId))
    && CursorRank(rows, c') + |out| <= CursorRank(rows, c)
  }

  /** Before the first row is read. */
  lemma NothingRead(rows: seq<Row>, f: Filter, search: Major, scanIndex: nat, start: Row)
    requires SortedRows(rows) && CursorOk(Cursor(Some(start), search, 0))
    ensures StoppedAt(rows, f, search, scanIndex, start, [], Some(start))
  {
    forall k | Rank(rows, start) <= k < |rows| ensures !RowLeq(rows[k], start) { RankSplits(rows, start, k); }
  }

  lemma RowLeqTransitive(a: Row, b: Row, c: Row)
    requires RowLeq(a, b) && RowLeq(b, c)
    ensures RowLeq(a, c)
  {
    if a != b && b != c { RowLessTransitive(a, b, c); }
  }

  lemma StoppedMoves(rows: seq<Row>, f: Filter, c: Cursor, scanIndex: nat, c': Cursor, out: seq<Candidate>)
    requires SortedRows(rows) && CursorOk(c) && c.resume.Some? && c'.search == c.search
    requires StoppedAt(rows, f, c.search, scanIndex, c.resume.value, out, c'.resume)
    requires CursorRank(rows, c') + |out| <= CursorRank(rows, c)
    ensures Moved(rows, f, c, scanIndex, c', out)
  {
    var start := c.resume.value;
    forall created, levId | Pending(c', created, levId) ensures Pending(c, created, levId) {
      RowLeqTransitive(Row(c.search, created, levId), c'.resume.value, start);
    }
    forall o, created, levId | o in out && Pending(c', created, levId) ensures NewerAt(o.created, o.levId, created, levId) {
      var r, p := Row(c.search, o.created, o.levId), Row(c.search, created, levId);
      if p != c'.resume.value { RowLessTransitive(p, c'.resume.value, r); }
      LessIrreflexiveMajor(c.search);
    }
    forall r | r in rows && r.major == c.search && InScanRange(f, r.created) && Pending(c, r.created, r.levId)
      ensures Candidate(r.levId, r.created, scanIndex) in out || Pending(c', r.created, r.levId)
    {
      var k :| 0 <= k < |rows| && rows[k] == r;
      if c'.resume.Some? { RankSplits(rows, c'.resume.value, k); }
    }
  }

  /** ScanCursor::collect: at most `limit` candidates, and the cursor stays active
      only if it delivered a full load. */
  method Collect(rows: seq<Row>, f: Filter, c: Cursor, scanIndex: nat, limit: nat) returns (c': Cursor, out: seq<Candidate>)
    requires SortedRows(rows) && RowsInRange(rows) && CursorOk(c) && limit > 0 && scanIndex < SCAN_LIMIT
    ensures Moved(rows, f, c, scanIndex, c', out)
    ensures c'.outstanding == c.outstanding + |out|
    ensures |out| <= limit && (c'.resume.Some? ==> |out| == limit)
  {
    out := [];
    if c.resume.None? { return c, out; }
    ghost var start := c.resume.value;
    var resume, left := c.resume, limit;
    NothingRead(rows, f, c.search, scanIndex, start);
    while resume.Some? && left > 0
      invariant StoppedAt(rows, f, c.search, scanIndex, start, out, resume)
      invariant |out| + left == limit && RankAt(rows, resume) + |out| <= Rank(rows, start)
      decreases if resume.Some? then Rank(rows, resume.value) + 1 else 0, left
    {
      var i := SeekReverse(rows, resume.value);
      if i > 0 { RowLeqTransitive(rows[i - 1], resume.value, start); }
      resume, left, out := ReadRun(rows, f, c.search, scanIndex, start, i, left, out);
    }
    c' := Cursor(resume, c.search, c.outstanding + |out|);
    StoppedMoves(rows, f, c, scanIndex, c', out);
  }
}
