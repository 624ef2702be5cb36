/** The expiry sweep (src/apps/relay/RelayCron.cpp) beside the writer. A sweep
    selects events in one transaction and deletes them in a later one; batches may
    be written in between. */
module Cron {
  import opened Events
  import opened Store
  import opened Databases

  /** A row of the `expiration` index: time and levId. */
  datatype ExpirationRow = ExpirationRow(expiration: nat, levId: nat)

  /** The index lists the events that have an expiration, earliest first. */
  ghost predicate IsExpirationIndex(rows: seq<ExpirationRow>, events: Table) {
    && (forall i, j :: 0 <= i < j < |rows| ==> rows[i].expiration <= rows[j].expiration)
    && (forall i :: 0 <= i < |rows| ==> rows[i].levId in events)
    && (forall i :: 0 <= i < |rows| ==> rows[i].expiration == events[rows[i].levId].expiration != 0)
    && (forall l :: l in events && events[l].expiration != 0 ==> exists i :: 0 <= i < |rows| && rows[i].levId == l)
  }

  /** Times are unsigned 64-bit numbers, and so is their difference. */
  function Cutoff(now: nat, lifetime: nat): (r: nat)
    requires now <= MAX_U64 && lifetime <= MAX_U64
  {
    if now < lifetime then now - lifetime + MAX_U64 + 1 else now - lifetime
  }

  /** Expiration 1 marks an ephemeral event, which lives for a while. */
  predicate Expired(e: Event, now: nat, lifetime: nat)
    requires now <= MAX_U64 && lifetime <= MAX_U64
  {
    e.expiration != 0 && e.expiration <= now && (e.expiration == 1 ==> e.createdAt <= Cutoff(now, lifetime))
  }

  /** The read transaction of the sweep: all events whose time is over, but for the newest
      one. An ephemeral event's time is over `lifetime` seconds after it was made; with a
      lifetime longer than the clock has run, the difference wraps around. */
  method FindExpired(db: Database, rows: seq<ExpirationRow>, now: nat, lifetime: nat) returns (levIds: seq<nat>)
    requires IsExpirationIndex(rows, db.events) && now <= MAX_U64 && lifetime <= MAX_U64
    ensures forall l :: l in levIds ==> l in db.events
    ensures forall l :: l in db.events ==> (l in levIds <==>
      && (exists m :: m in db.events && m > l)
      && 0 < db.events[l].expiration <= now
      && (db.events[l].expiration == 1 ==> db.events[l].createdAt + lifetime <= now + if now < lifetime then MAX_U64 + 1 else 0))
  {
    var mostRecent := db.MostRecentLevId();
    levIds := [];
    var i := 0;
    while i < |rows| && rows[i].expiration <= now
      invariant 0 <= i <= |rows|
      invariant forall k :: 0 <= k < i ==> rows[k].expiration <= now
      invariant forall l :: l in levIds ==> l in db.events && l != mostRecent && Expired(db.events[l], now, lifetime)
      invariant forall k :: 0 <= k < i && rows[k].levId != mostRecent && Expired(db.events[rows[k].levId], now, lifetime) ==> rows[k].levId in levIds
    {
      var l := rows[i].levId;
      if l != mostRecent {
        if rows[i].expiration == 1 {
          if db.events[l].createdAt <= Cutoff(now, lifetime) { levIds := levIds + [l]; }
        } else {
          levIds := levIds + [l];
        }
      }
      i := i + 1;
    }
    forall l | l in db.events && l != mostRecent && Expired(db.events[l], now, lifetime) ensures l in levIds {
      var k :| 0 <= k < |rows| && rows[k].levId == l;
    }
    assert forall l :: l in db.events && l != mostRecent ==> mostRecent in db.events && mostRecent > l;
  }

  // ---------------------------------------------------------------------------
  // Runs

  /** The store, the events a sweep has selected and not yet deleted, and every event
      that was ever stored, by levId. */
  datatype State = State(db: Table, selected: Table, hist: Table)

  datatype Step =
    | Batch(es: seq<Event>)
    | Select(levIds: set<nat>)
    | Sweep

  /** What the two transactions of a sweep and a write transaction may do. */
  ghost predicate Enabled(s: State, step: Step) {
    match step
    case Batch(es) => forall e :: e in es ==> EventOk(e)
    case Select(levIds) => forall l :: l in levIds ==> l in s.db && l != MaxLevId(s.db)
    case Sweep => true
  }

  /** The names given out while a batch is written. */
  ghost function Names(hist: Table, db: Table, es: seq<Event>): (r: Table) {
    if es == [] then hist
    else
      var n := |es| - 1;
      var h, d := Names(hist, db, es[..n]), Apply(db, es[..n]);
      if StatusOf(d, es[n]) == Written then h[MaxLevId(d) + 1 := es[n]] else h
  }

  ghost function After(s: State, step: Step): (s': State)
    requires Enabled(s, step)
  {
    match step
    case Batch(es) => State(Apply(s.db, es), s.selected, Names(s.hist, s.db, es))
    case Select(levIds) => s.(selected := map l | l in levIds :: s.db[l])
    case Sweep => State(s.db - s.selected.Keys, map[], s.hist)
  }

  /** levIds have been given out up to the largest one stored. */
  ghost predicate NamesOk(db: Table, hist: Table) {
    Within(db, hist) && forall l :: l in hist ==> l <= MaxLevId(db)
  }

  ghost predicate RunInv(s: State) {
    StoreInv(s.db) && NamesOk(s.db, s.hist) && Within(s.selected, s.hist) && MaxLevId(s.db) !in s.selected
  }

  lemma NameAdded(hist: Table, db: Table, e: Event, n: nat, db': Table)
    requires RowAdded(db, e, n, db') && Within(db, hist) && forall l :: l in hist ==> l < n
    ensures Within(db', hist[n := e]) && Within(hist, hist[n := e])
  {
  }

  /** The store and the names given out so far. */
  datatype Ledger = Ledger(db: Table, hist: Table)

  /** `b` is what `a` has become: names have been added, none changed. */
  ghost predicate Extends(a: Ledger, b: Ledger) {
    match b
    case Ledger(db, hist) => NamesOk(db, hist) && Within(a.hist, hist) && MaxLevId(db) >= MaxLevId(a.db)
  }

  lemma ExtendsThrough(a: Ledger, b: Ledger, c: Ledger)
    requires Extends(a, b) && Extends(b, c)
    ensures Extends(a, c)
  {
  }

  /** One event of a batch. */
  lemma NamesStep(hist: Table, db: Table, e: Event)
    requires NamesOk(db, hist)
    ensures Extends(Ledger(db, hist), Ledger(WriteOne(db, e), if StatusOf(db, e) == Written then hist[MaxLevId(db) + 1 := e] else hist))
  {
    MaxLevIdGrows(db, e);
    if StatusOf(db, e) == Written {
      WriteAdds(db, e);
      NameAdded(hist, db, e, MaxLevId(db) + 1, WriteOne(db, e));
    }
  }

  /** Writing gives the new event a levId that was never used before. */
  lemma {:induction false} BatchNames(hist: Table, db: Table, es: seq<Event>)
    requires NamesOk(db, hist)
    ensures Extends(Ledger(db, hist), Ledger(Apply(db, es), Names(hist, db, es)))
    decreases |es|
  {
    if es != [] {
      var n := |es| - 1;
      BatchNames(hist, db, es[..n]);
      var d, h := Apply(db, es[..n]), Names(hist, db, es[..n]);
      NamesStep(h, d, es[n]);
      ExtendsThrough(Ledger(db, hist), Ledger(d, h), Ledger(Apply(db, es), Names(hist, db, es)));
    }
  }

  /** An event that has left the store never comes back under its levId. */
  lemma {:induction false} BatchRevivesNothing(db: Table, es: seq<Event>)
    ensures forall l :: l in Apply(db, es) && l <= MaxLevId(db) ==> l in db
    ensures MaxLevId(Apply(db, es)) >= MaxLevId(db)
    decreases |es|
  {
    if es != [] {
      var n := |es| - 1;
      BatchRevivesNothing(db, es[..n]);
      MaxLevIdGrows(Apply(db, es[..n]), es[n]);
    }
  }

  lemma StepRevivesNothing(s: State, step: Step, l: nat)
    requires Enabled(s, step) && l in After(s, step).db && l <= MaxLevId(s.db)
    ensures l in s.db
  {
    match step
    case Batch(es) => { BatchRevivesNothing(s.db, es); }
    case Select(levIds) => {}
    case Sweep => {}
  }

  /** A sweep never touches the newest event, and what it deletes is what it
      selected, even if the store has changed since. */
  lemma SweepIsExact(s: State)
    requires RunInv(s)
    ensures forall l :: l in s.db && l in s.selected ==> s.db[l] == s.selected[l]
    ensures MaxLevId(s.db - s.selected.Keys) == MaxLevId(s.db)
    ensures RunInv(After(s, Sweep))
  {
    var db' := s.db - s.selected.Keys;
    if s.db == map[] {
      assert db' == map[];
    } else {
      MaxLevIdIs(db', MaxLevId(s.db));
    }
  }

  lemma StepKeepsInv(s: State, step: Step)
    requires RunInv(s) && Enabled(s, step)
    ensures RunInv(After(s, step))
    ensures MaxLevId(After(s, step).db) >= MaxLevId(s.db)
    ensures Within(s.hist, After(s, step).hist)
  {
    match step
    case Batch(es) => { BatchNames(s.hist, s.db, es); BatchLeavesSelected(s, es); ApplyKeepsInv(s.db, es); }
    case Select(levIds) => {}
    case Sweep => { SweepIsExact(s); }
  }

  /** A batch may enlarge the largest levId, but only to a new one. */
  lemma {:induction false} BatchLeavesSelected(s: State, es: seq<Event>)
    requires RunInv(s) && forall e :: e in es ==> EventOk(e)
    ensures MaxLevId(Apply(s.db, es)) !in s.selected
    decreases |es|
  {
    if es != [] {
      var n := |es| - 1;
      BatchLeavesSelected(s, es[..n]);
      BatchNames(s.hist, s.db, es[..n]);
      MaxLevIdGrows(Apply(s.db, es[..n]), es[n]);
    }
  }

  ghost predicate CanRun(s: State, steps: seq<Step>)
    decreases |steps|
  {
    steps == [] || (Enabled(s, steps[0]) && CanRun(After(s, steps[0]), steps[1..]))
  }

  ghost function Run(s: State, steps: seq<Step>): (s': State)
    requires CanRun(s, steps)
    decreases |steps|
  {
    if steps == [] then s else Run(After(s, steps[0]), steps[1..])
  }

  /** Over every interleaving of batches and sweeps the largest levId never
      decreases and no levId ever names two events. */
  lemma {:induction false} LevIdsNeverReused(s: State, steps: seq<Step>)
    requires RunInv(s) && CanRun(s, steps)
    ensures RunInv(Run(s, steps))
    ensures MaxLevId(Run(s, steps).db) >= MaxLevId(s.db)
    ensures Within(s.hist, Run(s, steps).hist) && Within(Run(s, steps).db, Run(s, steps).hist)
    decreases |steps|
  {
    if steps != [] {
      StepKeepsInv(s, steps[0]);
      LevIdsNeverReused(After(s, steps[0]), steps[1..]);
    }
  }
}
