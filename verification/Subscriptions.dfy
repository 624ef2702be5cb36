/** One subscription on its way from request to monitoring, and what it is sent
    (src/Subscription.h, src/apps/relay/RelayReqWorker.cpp,
    src/apps/relay/RelayReqMonitor.cpp). */
module Subscriptions {
  import opened Events
  import opened Sequences
  import opened Filters
  import opened Lookups
  import opened Queries

  datatype Stage = Requested | Querying | HandedOver | Monitoring

  /** A Subscription object, which is moved from the worker to the monitor. `start`,
      `first`, `keep`, `hist`, `sent` and `live` record its history: the newest event
      and the events stored when its query began, those stored at every moment and at
      some moment the query looked, and the levIds sent before and after EOSE. */
  datatype Subscription = Subscription(
    key: SubKey,
    filters: seq<Filter>,
    latestEventId: nat,
    stage: Stage,
    start: nat,
    first: Table,
    keep: Table,
    hist: Table,
    sent: seq<nat>,
    live: seq<nat>)

  /** A websocket message of a subscription. */
  datatype Message = Stored(levId: nat) | Eose | Live(levId: nat)

  predicate Done(s: Subscription) {
    s.stage.HandedOver? || s.stage.Monitoring?
  }

  /** Everything the subscriber has received, in order. */
  function Messages(s: Subscription): (r: seq<Message>) {
    seq(|s.sent|, i requires 0 <= i < |s.sent| => Stored(s.sent[i]))
    + (if Done(s) then [Eose] else [])
    + seq(|s.live|, i requires 0 <= i < |s.live| => Live(s.live[i]))
  }

  function Max(a: nat, b: nat): (m: nat) {
    if a < b then b else a
  }

  // ---------------------------------------------------------------------------
  // Ranges of the event table

  /** The matching events of a table after `low` and up to `high`, oldest first. */
  function Between(db: Table, filters: seq<Filter>, low: nat, high: nat): (r: seq<nat>)
    decreases high
  {
    if high <= low then []
    else
      var rest := Between(db, filters, low, high - 1);
      if high in db && GroupMatches(filters, db[high]) then rest + [high] else rest
  }

  lemma IncreasingJoin(a: seq<nat>, b: seq<nat>, m: nat)
    requires Increasing(a) && Increasing(b) && (forall l :: l in a ==> l <= m) && forall l :: l in b ==> m < l
    ensures Increasing(a + b)
  {
    forall i, j | 0 <= i < j < |a + b| ensures (a + b)[i] < (a + b)[j] {
      if i < |a| <= j { assert (a + b)[i] in a && (a + b)[j] in b; }
    }
  }

  lemma {:induction false} BetweenIs(db: Table, filters: seq<Filter>, low: nat, high: nat)
    ensures forall l :: l in Between(db, filters, low, high) <==> low < l <= high && l in db && GroupMatches(filters, db[l])
    ensures Increasing(Between(db, filters, low, high))
    decreases high
  {
    if high > low {
      BetweenIs(db, filters, low, high - 1);
      IncreasingJoin(Between(db, filters, low, high - 1), [high], high - 1);
    }
  }

  // ---------------------------------------------------------------------------
  // The store as seen from here

  /** The stored events, every event ever stored, and the largest levId stored. */
  datatype World = World(db: Table, hist: Table, top: nat)

  ghost predicate WorldOk(w: World) {
    Within(w.db, w.hist) && forall l :: l in w.hist ==> l <= w.top
  }

  /** What writers and sweeps do to it: events come with new levIds only. */
  ghost predicate Forward(w: World, w': World) {
    && WorldOk(w') && Within(w.hist, w'.hist) && w.top <= w'.top
    && forall l :: l in w'.db && l <= w.top ==> l in w.db
  }

  /** `l` is an event the subscription asked for. */
  ghost predicate AskedFor(s: Subscription, hist: Table, l: nat) {
    l in hist && GroupMatches(s.filters, hist[l])
  }

  /** The query's part of the history. */
  ghost predicate StoredPartOk(s: Subscription, w: World) {
    && NoRepeats(s.sent)
    && (forall l :: l in s.sent ==> l <= s.start && AskedFor(s, w.hist, l))
    && (s.stage.Requested? ==> s.sent == [])
  }

  /** What the query has to find is still there to be found. */
  ghost predicate KeepOk(s: Subscription, w: World) {
    !s.stage.Requested? ==>
      && s.start <= w.top && Within(s.keep, s.first) && Within(s.first, s.hist) && Within(s.hist, w.hist)
      && (forall l :: l in s.hist && l <= s.start ==> l in s.first)
      && (forall l :: l in w.db && l <= s.start ==> l in s.keep)
  }

  /** The query has given its answer. */
  ghost predicate AnswerOk(s: Subscription, w: World) {
    Done(s) ==> Answered(s.filters, s.start, s.sent, s.keep, s.hist)
  }

  /** The live part of the history. */
  ghost predicate LiveOk(s: Subscription, w: World) {
    && Increasing(s.live)
    && (forall l :: l in s.live ==> s.start < l <= s.latestEventId && AskedFor(s, w.hist, l))
    && (!s.stage.Monitoring? ==> s.live == [])
    && (s.stage.Querying? || s.stage.HandedOver? ==> s.latestEventId == s.start)
    && (s.stage.Monitoring? ==> s.start <= s.latestEventId <= w.top)
  }

  ghost predicate StoryOk(s: Subscription, w: World) {
    StoredPartOk(s, w) && KeepOk(s, w) && AnswerOk(s, w) && LiveOk(s, w)
  }

  lemma StoryForward(s: Subscription, w: World, w': World)
    requires StoryOk(s, w) && WorldOk(w) && Forward(w, w')
    ensures StoryOk(s, w')
  {
    forall l | l in w'.db && l <= s.start && !s.stage.Requested? ensures l in s.keep { assert l in w.db; }
  }

  // ---------------------------------------------------------------------------
  // The worker's steps

  /** addSub: the query starts at the newest event of the worker's snapshot. */
  function Started(s: Subscription, snap: Table, latest: nat): (s': Subscription) {
    s.(latestEventId := latest, stage := Querying, start := latest, first := snap, keep := snap, hist := snap)
  }

  /** The worker turns to a new snapshot. */
  function Narrowed(s: Subscription, db: Table): (s': Subscription) {
    if s.stage.Querying? then s.(keep := map l | l in s.keep && l in db :: s.keep[l], hist := s.hist + db) else s
  }

  /** The query sends an event. */
  function SentOne(s: Subscription, l: nat): (s': Subscription) {
    s.(sent := s.sent + [l])
  }

  /** What the query engine may come up with. */
  ghost predicate MaySend(s: Subscription, snap: Table, l: nat) {
    l !in s.sent && l <= s.start && AskedFor(s, snap, l)
  }

  /** A slice of the query engine is a number of such steps: what it adds to the output,
      event by event, may be sent. */
  lemma SliceMaySend(s: Subscription, q: DBQuery, before: seq<nat>, snap: Table, keep: Table, hist: Table, i: nat)
    requires q.Inv(keep, hist) && q.filters == s.filters && q.latestEventId == s.start
    requires Sends(before, q.sent, snap) && Within(snap, hist) && |before| <= i < |q.sent|
    ensures MaySend(s.(sent := q.sent[..i]), snap, q.sent[i])
  {
    SentSoFar(q, keep, hist);
    assert q.sent[i] in q.sent;
  }

  /** onComplete. */
  function Completed(s: Subscription): (s': Subscription) {
    s.(stage := HandedOver)
  }

  /** A thread's snapshot, taken some time ago. */
  ghost predicate SnapshotOf(snap: Table, latest: nat, w: World) {
    && Within(snap, w.hist) && latest <= w.top
    && (forall l :: l in snap ==> l <= latest)
    && forall l :: l in w.db && l <= latest ==> l in snap
  }

  lemma SnapshotForward(snap: Table, latest: nat, w: World, w': World)
    requires SnapshotOf(snap, latest, w) && Forward(w, w')
    ensures SnapshotOf(snap, latest, w')
  {
  }

  lemma StartedOk(s: Subscription, snap: Table, latest: nat, w: World)
    requires StoryOk(s, w) && s.stage.Requested? && SnapshotOf(snap, latest, w)
    ensures StoryOk(Started(s, snap, latest), w)
  {
  }

  lemma NarrowedOk(s: Subscription, w: World)
    requires StoryOk(s, w) && WorldOk(w)
    ensures StoryOk(Narrowed(s, w.db), w)
  {
    if s.stage.Querying? {
      var s' := Narrowed(s, w.db);
      assert Within(s'.keep, s'.first) && Within(s'.first, s'.hist) && Within(s'.hist, w.hist);
    }
  }

  lemma SentOneOk(s: Subscription, snap: Table, latest: nat, l: nat, w: World)
    requires StoryOk(s, w) && s.stage.Querying? && SnapshotOf(snap, latest, w) && MaySend(s, snap, l)
    ensures StoryOk(SentOne(s, l), w)
  {
  }

  lemma CompletedOk(s: Subscription, w: World)
    requires StoryOk(s, w) && s.stage.Querying? && WorldOk(w)
    requires Answered(s.filters, s.start, s.sent, s.keep, s.hist)
    ensures StoryOk(Completed(s), w)
  {
  }

  // ---------------------------------------------------------------------------
  // The monitor's steps

  /** NewSub: the events that came in during the hand-over, then the watermark. */
  function CaughtUp(s: Subscription, snap: Table, latest: nat): (s': Subscription) {
    s.(live := s.live + Between(snap, s.filters, s.latestEventId, latest), latestEventId := latest, stage := Monitoring)
  }

  /** DBChange: the events after `curr` that are above the watermark. */
  function Updated(s: Subscription, snap: Table, curr: nat, latest: nat): (s': Subscription) {
    var found := Between(snap, s.filters, Max(s.latestEventId, curr), latest);
    if found == [] then s else s.(live := s.live + found, latestEventId := found[|found| - 1])
  }

  /** Every matching event after the start and up to `frontier` that is stored has
      been sent. */
  ghost predicate UpTo(s: Subscription, w: World, frontier: nat) {
    forall l :: l in w.db && s.start < l <= frontier && GroupMatches(s.filters, w.db[l]) ==> l in s.live
  }

  lemma UpToForward(s: Subscription, w: World, w': World, frontier: nat)
    requires UpTo(s, w, frontier) && frontier <= w.top && WorldOk(w) && Forward(w, w')
    ensures UpTo(s, w', frontier)
  {
    forall l | l in w'.db && s.start < l <= frontier && GroupMatches(s.filters, w'.db[l]) ensures l in s.live {
      assert l in w.db && w.db[l] == w'.db[l];
    }
  }

  lemma CaughtUpOk(s: Subscription, snap: Table, latest: nat, w: World)
    requires StoryOk(s, w) && s.stage.HandedOver? && SnapshotOf(snap, latest, w) && WorldOk(w) && s.start <= latest
    ensures StoryOk(CaughtUp(s, snap, latest), w)
    ensures UpTo(CaughtUp(s, snap, latest), w, latest)
  {
    BetweenIs(snap, s.filters, s.latestEventId, latest);
    var s' := CaughtUp(s, snap, latest);
    assert s'.live == Between(snap, s.filters, s.start, latest);
  }

  lemma UpdatedOk(s: Subscription, snap: Table, curr: nat, latest: nat, w: World)
    requires StoryOk(s, w) && s.stage.Monitoring? && SnapshotOf(snap, latest, w) && WorldOk(w)
    requires UpTo(s, w, Max(s.latestEventId, curr)) && Max(s.latestEventId, curr) <= latest
    ensures StoryOk(Updated(s, snap, curr, latest), w)
    ensures UpTo(Updated(s, snap, curr, latest), w, latest) && Updated(s, snap, curr, latest).latestEventId <= latest
  {
    var low := Max(s.latestEventId, curr);
    var found := Between(snap, s.filters, low, latest);
    BetweenIs(snap, s.filters, low, latest);
    IncreasingJoin(s.live, found, s.latestEventId);
    var s' := Updated(s, snap, curr, latest);
    assert s'.live == s.live + found;
    if found != [] {
      assert found[|found| - 1] in found;
      forall l | l in found ensures l <= s'.latestEventId { var i :| 0 <= i < |found| && found[i] == l; }
    }
  }

  // ---------------------------------------------------------------------------
  // What the subscriber sees

  /** Messages are only ever added at the end. */
  ghost predicate Continues(s: Subscription, s': Subscription) {
    s'.key == s.key && s'.filters == s.filters && Messages(s) <= Messages(s')
  }

  lemma ContinuesThrough(a: Subscription, b: Subscription, c: Subscription)
    requires Continues(a, b) && Continues(b, c)
    ensures Continues(a, c)
  {
    assert Messages(c)[..|Messages(a)|] == Messages(b)[..|Messages(a)|];
  }

  /** The query's messages, while it runs. */
  lemma QueryContinues(s: Subscription, snap: Table, latest: nat, l: nat, db: Table, w: World)
    requires StoryOk(s, w)
    ensures s.stage.Requested? ==> Continues(s, Started(s, snap, latest))
    ensures Continues(s, Narrowed(s, db))
    ensures s.stage.Querying? ==> Continues(s, SentOne(s, l))
    ensures s.stage.Querying? ==> Continues(s, Completed(s))
  {
    if s.stage.Querying? {
      assert Messages(s) == Messages(SentOne(s, l))[..|s.sent|];
      assert Messages(s) == Messages(Completed(s))[..|s.sent|];
    }
  }

  lemma LiveContinues(s: Subscription, snap: Table, curr: nat, latest: nat)
    requires Done(s)
    ensures Continues(s, CaughtUp(s, snap, latest))
    ensures s.stage.Monitoring? ==> Continues(s, Updated(s, snap, curr, latest))
  {
    assert Messages(s) == Messages(CaughtUp(s, snap, latest))[..|Messages(s)|];
    if s.stage.Monitoring? { assert Messages(s) == Messages(Updated(s, snap, curr, latest))[..|Messages(s)|]; }
  }

  predicate Carries(m: Message, l: nat) {
    !m.Eose? && m.levId == l
  }

  /** EOSE comes once, stored events before it and live ones after it. */
  ghost predicate WellTold(ms: seq<Message>) {
    && (forall p, q :: 0 <= p < q < |ms| && ms[q].Stored? ==> ms[p].Stored?)
    && (forall p, q :: 0 <= p < q < |ms| && ms[q].Eose? ==> ms[p].Stored?)
    && (forall q :: 0 <= q < |ms| && ms[q].Live? ==> exists p :: 0 <= p < q && ms[p].Eose?)
  }

  ghost predicate NoneTwice(ms: seq<Message>) {
    forall p, q, l :: 0 <= p < q < |ms| && Carries(ms[p], l) ==> !Carries(ms[q], l)
  }

  /** A subscriber gets no event twice, and live events only after EOSE. */
  lemma ToldInOrder(s: Subscription, w: World)
    requires StoryOk(s, w)
    ensures WellTold(Messages(s)) && NoneTwice(Messages(s))
  {
    var ms := Messages(s);
    if s.live != [] { assert ms[|s.sent|].Eose?; }
    forall p, q, l | 0 <= p < q < |ms| && Carries(ms[p], l) ensures !Carries(ms[q], l) {
      if p < |s.sent| { assert ms[p] == Stored(s.sent[p]) && s.sent[p] in s.sent; }
      if q < |s.sent| { assert ms[q] == Stored(s.sent[q]); }
      if q > |s.sent| {
        assert ms[q] == Live(s.live[q - |s.sent| - 1]) && s.live[q - |s.sent| - 1] in s.live;
        if p > |s.sent| { assert ms[p] == Live(s.live[p - |s.sent| - 1]); }
      }
    }
  }

  lemma AllCarried(s: Subscription, l: nat)
    requires l in s.sent || (Done(s) && l in s.live)
    ensures exists p :: 0 <= p < |Messages(s)| && Carries(Messages(s)[p], l)
  {
    if l in s.sent {
      var p :| 0 <= p < |s.sent| && s.sent[p] == l;
      assert Carries(Messages(s)[p], l);
    } else {
      var p :| 0 <= p < |s.live| && s.live[p] == l;
      assert Carries(Messages(s)[|s.sent| + 1 + p], l);
    }
  }
}
