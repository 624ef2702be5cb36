/** writeEvents and deleteEvents (src/events_write.cpp, src/events.h). */
module Writer {
  import opened ByteStrings
  import opened Results
  import opened Events
  import opened Store
  import opened Databases

  datatype EventToWrite = EventToWrite(event: Event, json: Bytes, status: Status, levId: nat)

  // ---------------------------------------------------------------------------
  // Index keys

  /** The key of an event in the `replace` index (golpe.yaml): author and first
      d-tag run together, and the kind. */
  function ReplaceKey(e: Event): (k: Option<(Bytes, nat)>) {
    match FirstD(e.tags)
    case Some(d) => Some((e.pubkey + d, e.kind))
    case None => None
  }

  /** Author keys have a fixed length, so the run-together key is the slot. */
  lemma ReplaceKeyIsSlot(a: Event, b: Event)
    requires |a.pubkey| == |b.pubkey| == 32 && SlotOf(a).Some?
    ensures ReplaceKey(b) == ReplaceKey(a) <==> SlotOf(b) == SlotOf(a)
  {
    if ReplaceKey(b) == ReplaceKey(a) {
      var da, db := FirstD(a.tags).value, FirstD(b.tags).value;
      assert (a.pubkey + da)[..32] == a.pubkey && (b.pubkey + db)[..32] == b.pubkey;
      assert (a.pubkey + da)[32..] == da && (b.pubkey + db)[32..] == db;
    }
  }

  /** The keys of an event in the `deletion` index: every e-tag of a kind-5 event,
      run together with its author. */
  predicate HasDeletionKey(d: Event, key: Bytes) {
    IsDeletion(d.kind) && exists t :: t in d.tags && t.name == TAG_E && t.value + d.pubkey == key
  }

  lemma DeletionKeyIsTarget(d: Event, e: Event)
    requires EventOk(d) && EventOk(e)
    ensures HasDeletionKey(d, e.id + e.pubkey) <==> Targets(d, e)
  {
    if HasDeletionKey(d, e.id + e.pubkey) {
      var t :| t in d.tags && t.name == TAG_E && t.value + d.pubkey == e.id + e.pubkey;
      assert (t.value + d.pubkey)[..32] == t.value && (e.id + e.pubkey)[..32] == e.id;
      assert (t.value + d.pubkey)[32..] == d.pubkey && (e.id + e.pubkey)[32..] == e.pubkey;
      assert t == Tag(TAG_E, e.id);
    }
    if Targets(d, e) { assert Tag(TAG_E, e.id).value + d.pubkey == e.id + e.pubkey; }
  }

  // ---------------------------------------------------------------------------
  // Single rows

  /** Stores an event with its payload and enters it in the trees. */
  method Insert(db: Database, cache: NegentropyFilterCache, e: Event, payload: Bytes) returns (levId: nat)
    requires db.Tables() && cache.UpToDate(db.negFilters) && !HasId(db.events, e.id)
    modifies db`events, db`payloads, db`trees
    ensures db.Tables()
    ensures levId == MaxLevId(old(db.events)) + 1 && db.events == old(db.events)[levId := e]
    ensures db.payloads == old(db.payloads)[levId := payload]
  {
    var m := db.MostRecentLevId();
    levId := m + 1;
    forall t | t in db.trees
      ensures TreeSound(Touched(db.trees[t], db.negFilters[t], e, true), db.negFilters[t], db.events[levId := e])
      ensures t in db.built ==> TreeFull(Touched(db.trees[t], db.negFilters[t], e, true), db.negFilters[t], db.events[levId := e])
    {
      TouchInsert(db.trees[t], db.negFilters[t], db.events, e, levId);
    }
    db.events := db.events[levId := e];
    db.payloads := db.payloads[levId := payload];
    var _ := cache.Update(db, e, true);
  }

  /** Erases a stored event from the trees and deletes its rows. */
  method Remove(db: Database, cache: NegentropyFilterCache, l: nat) returns (deleted: bool)
    requires db.Tables() && cache.UpToDate(db.negFilters) && l in db.events
    modifies db`events, db`payloads, db`trees
    ensures db.Tables() && deleted
    ensures db.events == old(db.events) - {l} && db.payloads == old(db.payloads) - {l}
  {
    forall t | t in db.trees
      ensures TreeSound(Touched(db.trees[t], db.negFilters[t], db.events[l], false), db.negFilters[t], db.events - {l})
      ensures t in db.built ==> TreeFull(Touched(db.trees[t], db.negFilters[t], db.events[l], false), db.negFilters[t], db.events - {l})
    {
      TouchErase(db.trees[t], db.negFilters[t], db.events, l);
    }
    var _ := cache.Update(db, db.events[l], false);
    deleted := l in db.payloads;
    db.payloads := db.payloads - {l};
    db.events := db.events - {l};
  }

  ghost function Named(levIds: seq<nat>): (s: set<nat>)
    ensures forall l :: l in s <==> l in levIds
  {
    set l | l in levIds
  }

  lemma NamedStep(levIds: seq<nat>, i: nat)
    requires i < |levIds|
    ensures Named(levIds[..i + 1]) == Named(levIds[..i]) + {levIds[i]}
  {
    assert levIds[..i + 1] == levIds[..i] + [levIds[i]];
  }

  lemma RemoveOne(events: Table, gone: set<nat>, x: nat)
    ensures x in events - gone ==> |events - gone| == |events - (gone + {x})| + 1
    ensures (events - gone) - {x} == events - (gone + {x})
    ensures x !in events - gone ==> events - gone == events - (gone + {x})
  {
    if x in events - gone {
      assert (events - gone).Keys == (events - (gone + {x})).Keys + {x};
      assert |(events - gone).Keys| == |(events - (gone + {x})).Keys| + 1;
    }
  }

  /** One turn of the deletion loop; the event may already be gone. */
  method RemoveIfStored(db: Database, cache: NegentropyFilterCache, l: nat) returns (deleted: bool)
    requires db.Tables() && cache.UpToDate(db.negFilters)
    modifies db`events, db`payloads, db`trees
    ensures db.Tables()
    ensures db.events == old(db.events) - {l} && (deleted <==> l in old(db.events))
    ensures db.payloads == old(db.payloads) - {l}
  {
    if l in db.events {
      deleted := Remove(db, cache, l);
    } else {
      deleted := false;
      assert db.events - {l} == db.events;
      assert l !in db.payloads.Keys && db.payloads - {l} == db.payloads;
    }
  }

  method RemoveNext(db: Database, cache: NegentropyFilterCache, levIds: seq<nat>, i: nat, numDeleted: nat, ghost events: Table, ghost payloads: map<nat, Bytes>)
      returns (numDeleted': nat)
    requires db.Tables() && cache.UpToDate(db.negFilters) && i < |levIds|
    requires RemovedSoFar(events, payloads, levIds[..i], Left(db.events, db.payloads, numDeleted))
    modifies db`events, db`payloads, db`trees
    ensures db.Tables() && RemovedSoFar(events, payloads, levIds[..i + 1], Left(db.events, db.payloads, numDeleted'))
  {
    ghost var before := Left(db.events, db.payloads, numDeleted);
    var deleted := RemoveIfStored(db, cache, levIds[i]);
    numDeleted' := if deleted then numDeleted + 1 else numDeleted;
    RemovedStep(events, payloads, levIds, i, before, Left(db.events, db.payloads, numDeleted'));
  }

  /** The loop over a list of levIds to delete, which may name an event twice or
      one that is already gone. Returns how many events were deleted. */
  method RemoveAll(db: Database, cache: NegentropyFilterCache, levIds: seq<nat>) returns (numDeleted: nat)
    requires db.Tables() && cache.UpToDate(db.negFilters)
    modifies db`events, db`payloads, db`trees
    ensures db.Tables()
    ensures db.events == old(db.events) - Named(levIds) && db.payloads == old(db.payloads) - Named(levIds)
    ensures numDeleted == |old(db.events)| - |db.events|
  {
    ghost var events, payloads := db.events, db.payloads;
    numDeleted := 0;
    NothingNamed(events, payloads);
    for i := 0 to |levIds|
      invariant db.Tables() && cache.UpToDate(db.negFilters)
      invariant RemovedSoFar(events, payloads, levIds[..i], Left(db.events, db.payloads, numDeleted))
    {
      numDeleted := RemoveNext(db, cache, levIds, i, numDeleted, events, payloads);
    }
    assert levIds[..|levIds|] == levIds;
  }

  /** What is left in the tables, and how many events are gone. */
  datatype Left = Left(events: Table, payloads: map<nat, Bytes>, numDeleted: nat)

  ghost predicate RemovedSoFar(events: Table, payloads: map<nat, Bytes>, levIds: seq<nat>, left: Left) {
    match left
    case Left(rest, payloads', numDeleted) =>
      rest == events - Named(levIds) && payloads' == payloads - Named(levIds) && numDeleted == |events| - |rest|
  }

  lemma NothingNamed(events: Table, payloads: map<nat, Bytes>)
    ensures RemovedSoFar(events, payloads, [], Left(events, payloads, 0))
  {
    assert events - Named([]) == events && payloads - Named([]) == payloads;
  }

  lemma RemoveTwice(payloads: map<nat, Bytes>, gone: set<nat>, x: nat)
    ensures (payloads - gone) - {x} == payloads - (gone + {x})
  {
  }

  lemma RemovedStep(events: Table, payloads: map<nat, Bytes>, levIds: seq<nat>, i: nat, before: Left, after: Left)
    requires i < |levIds| && RemovedSoFar(events, payloads, levIds[..i], before)
    requires after.events == before.events - {levIds[i]} && after.payloads == before.payloads - {levIds[i]}
    requires after.numDeleted == before.numDeleted + if levIds[i] in before.events then 1 else 0
    ensures RemovedSoFar(events, payloads, levIds[..i + 1], after)
  {
    NamedStep(levIds, i);
    RemoveOne(events, Named(levIds[..i]), levIds[i]);
    RemoveTwice(payloads, Named(levIds[..i]), levIds[i]);
  }

  // ---------------------------------------------------------------------------
  // Deciding what a new event replaces and deletes

  /** checkReplaceable: the incoming event loses against the event in its slot, or
      that event is to be deleted. */
  method CheckReplaceable(events: Table, e: Event) returns (status: Option<Status>, toDelete: seq<nat>)
    requires StoreInv(events) && EventOk(e)
    ensures status == if Outranked(events, e) then Some(Replaced) else None
    ensures status.Some? ==> toDelete == []
    ensures status.None? ==> forall l :: l in toDelete <==> l in events && SameSlot(e, events[l])
    ensures status.Some? <==>
      exists l :: l in events && SameSlot(e, events[l]) && events[l].createdAt >= e.createdAt
        && (events[l].createdAt == e.createdAt ==> !Less(e.id, events[l].id))
  {
    status, toDelete := None, [];
    if !(IsReplaceable(e.kind) || IsParamReplaceable(e.kind)) || ReplaceKey(e).None? { return; }
    assert forall l :: l in events ==> (ReplaceKey(events[l]) == ReplaceKey(e) <==> SameSlot(e, events[l])) by {
      forall l | l in events { ReplaceKeyIsSlot(e, events[l]); }
    }
    if l :| l in events && ReplaceKey(events[l]) == ReplaceKey(e) {
      var other := events[l];
      assert forall m :: m in events && SameSlot(e, events[m]) ==> m == l by {
        forall m | m in events && SameSlot(e, events[m]) ensures m == l { assert SameSlot(events[m], events[l]); }
      }
      if other.createdAt < e.createdAt || (other.createdAt == e.createdAt && Less(e.id, other.id)) {
        toDelete := [l];
      } else {
        status := Some(Replaced);
      }
    }
  }

  /** collectDeletionTargets: the stored events of the same author that the e-tags
      of a kind-5 event name, possibly more than once. */
  method CollectDeletionTargets(db: Database, e: Event) returns (toDelete: seq<nat>)
    requires UniqueIds(db.events) && IsDeletion(e.kind)
    ensures forall l :: l in toDelete <==> l in db.events && Targets(e, db.events[l])
  {
    toDelete := [];
    for i := 0 to |e.tags|
      invariant forall l :: l in toDelete <==> l in db.events && e.pubkey == db.events[l].pubkey && Tag(TAG_E, db.events[l].id) in e.tags[..i]
    {
      assert e.tags[..i + 1] == e.tags[..i] + [e.tags[i]];
      if e.tags[i].name == TAG_E {
        var other := db.LookupById(e.tags[i].value);
        if other.Some? && db.events[other.value].pubkey == e.pubkey { toDelete := toDelete + [other.value]; }
      }
    }
    assert e.tags[..|e.tags|] == e.tags;
  }

  // ---------------------------------------------------------------------------
  // Writing

  /** Inserting first and deleting the victims afterwards is what a write means. */
  lemma InsertThenRemove(events: Table, e: Event, toDelete: seq<nat>)
    requires StatusOf(events, e) == Written
    requires forall l :: l in toDelete <==> Victim(events, e, l)
    ensures events[MaxLevId(events) + 1 := e] - Named(toDelete) == WriteOne(events, e)
  {
    WriteAdds(events, e);
  }

  /** The tombstone lookup by event id and author. */
  method IsTombstoned(events: Table, e: Event) returns (r: bool)
    requires StoreInv(events) && EventOk(e)
    ensures r <==> Tombstoned(events, e)
  {
    r := exists l :: l in events && HasDeletionKey(events[l], e.id + e.pubkey);
    forall l | l in events ensures HasDeletionKey(events[l], e.id + e.pubkey) <==> Targets(events[l], e) {
      DeletionKeyIsTarget(events[l], e);
    }
  }

  /** The victims of an event that goes in: the event in its slot and, for a kind-5
      event, its targets; or the reason it does not go in. */
  method Examine(db: Database, e: Event, repeated: bool) returns (status: Status, toDelete: seq<nat>)
    requires StoreInv(db.events) && EventOk(e)
    ensures status == if repeated then Duplicate else if StatusOf(db.events, e) == Written then Pending else StatusOf(db.events, e)
    ensures status != Pending ==> toDelete == []
    ensures status == Pending ==> forall l :: l in toDelete <==> Victim(db.events, e, l)
  {
    toDelete := [];
    var other := db.LookupById(e.id);
    if other.Some? || repeated { return Duplicate, toDelete; }
    var tombstoned := IsTombstoned(db.events, e);
    if tombstoned { return Deleted, toDelete; }
    var replaced;
    replaced, toDelete := CheckReplaceable(db.events, e);
    status := if replaced.Some? then replaced.value else Pending;
    if IsDeletion(e.kind) {
      var targets := CollectDeletionTargets(db, e);
      toDelete := toDelete + targets;
    }
  }

  /** Every payload is as it was, but for a new one. */
  ghost predicate Unaltered(before: map<nat, Bytes>, after: map<nat, Bytes>, levId: nat) {
    forall l :: l in after && l != levId ==> l in before && after[l] == before[l]
  }

  /** Deletions happen after the event was written, so that levIds are not reused. */
  method Commit(db: Database, cache: NegentropyFilterCache, e: Event, payload: Bytes, toDelete: seq<nat>) returns (levId: nat)
    requires db.Tables() && cache.UpToDate(db.negFilters)
    requires StatusOf(db.events, e) == Written
    requires forall l :: l in toDelete <==> Victim(db.events, e, l)
    modifies db`events, db`payloads, db`trees
    ensures db.Tables()
    ensures db.events == WriteOne(old(db.events), e) && levId == MaxLevId(old(db.events)) + 1
    ensures levId in db.payloads && db.payloads[levId] == payload && Unaltered(old(db.payloads), db.payloads, levId)
  {
    InsertThenRemove(db.events, e, toDelete);
    ghost var result := WriteOne(db.events, e);
    levId := Insert(db, cache, e, payload);
    assert db.events - Named(toDelete) == result;
    PayloadStays(old(db.events), old(db.payloads), levId, payload, toDelete);
    var _ := RemoveAll(db, cache, toDelete);
  }

  /** The victims of a write are older than the new event. */
  lemma PayloadStays(events: Table, payloads: map<nat, Bytes>, levId: nat, payload: Bytes, toDelete: seq<nat>)
    requires levId == MaxLevId(events) + 1 && forall l :: l in toDelete ==> l in events
    ensures
      var after := payloads[levId := payload] - Named(toDelete);
      levId in after && after[levId] == payload && Unaltered(payloads, after, levId)
  {
  }

  /** One turn of the writeEvents loop. `repeated` says that the previous event of the
      sorted batch has the same id. The list of deletions is empty again at the
      end, so the "unprocessed deletion" error cannot occur. */
  method WriteEvent(db: Database, cache: NegentropyFilterCache, ev: EventToWrite, repeated: bool) returns (r: EventToWrite)
    requires db.Valid() && cache.UpToDate(db.negFilters)
    requires ev.status == Pending && EventOk(ev.event)
    requires repeated ==> WriteOne(db.events, ev.event) == db.events
    modifies db`events, db`payloads, db`trees
    ensures db.Valid()
    ensures db.events == WriteOne(old(db.events), ev.event)
    ensures r == ev.(status := r.status, levId := r.levId)
    ensures r.status == if repeated then Duplicate else StatusOf(old(db.events), ev.event)
    ensures r.status == Written ==> r.levId == MaxLevId(old(db.events)) + 1
    ensures r.status == Written ==> r.levId in db.payloads && db.payloads[r.levId] == [0] + ev.json
    ensures Unaltered(old(db.payloads), db.payloads, MaxLevId(old(db.events)) + 1)
  {
    WriteKeepsInv(db.events, ev.event);
    var status, toDelete := Examine(db, ev.event, repeated);
    r := ev.(status := status);
    if r.status == Pending {
      var levId := Commit(db, cache, ev.event, [0] + ev.json, toDelete);
      toDelete := [];
      r := r.(levId := levId, status := Written);
    }
    assert toDelete == [];
  }

  // ---------------------------------------------------------------------------
  // Batches

  /** The order in which a batch is processed. */
  predicate Before(a: Event, b: Event) {
    a.createdAt < b.createdAt || (a.createdAt == b.createdAt && Less(a.id, b.id))
  }

  /** By time, and by id where the times are equal. */
  predicate SortedBatch(evs: seq<EventToWrite>) {
    forall i, j :: 0 <= i < j < |evs| ==>
      var a, b := evs[i].event, evs[j].event;
      a.createdAt < b.createdAt || (a.createdAt == b.createdAt && !Less(b.id, a.id))
  }

  lemma BeforeOrder(a: Event, b: Event, c: Event)
    ensures Before(a, b) ==> !Before(b, a)
    ensures !Before(b, a) && !Before(c, b) ==> !Before(c, a)
  {
    if Less(a.id, b.id) { LessAsymmetric(a.id, b.id); }
    LessTotal(a.id, b.id);
    LessTotal(b.id, c.id);
    if Less(a.id, b.id) && Less(b.id, c.id) { LessTransitive(a.id, b.id, c.id); }
    if Less(a.id, c.id) { LessAsymmetric(a.id, c.id); }
    LessIrreflexive(a.id);
  }

  lemma SpliceSorted(r: seq<EventToWrite>, k: nat, x: EventToWrite)
    requires SortedBatch(r) && k <= |r|
    requires forall i :: 0 <= i < k ==> !Before(x.event, r[i].event)
    requires forall i :: k <= i < |r| ==> !Before(r[i].event, x.event)
    ensures SortedBatch(r[..k] + [x] + r[k..])
    ensures multiset(r[..k] + [x] + r[k..]) == multiset(r) + multiset{x}
  {
    var s := r[..k] + [x] + r[k..];
    forall i, j | 0 <= i < j < |s| ensures !Before(s[j].event, s[i].event) {
      var i', j' := if i > k then i - 1 else i, if j > k then j - 1 else j;
      assert i != k ==> s[i] == r[i'];
      assert j != k ==> s[j] == r[j'];
    }
    assert r == r[..k] + r[k..];
  }

  method InsertSorted(r: seq<EventToWrite>, x: EventToWrite) returns (r': seq<EventToWrite>)
    requires SortedBatch(r)
    ensures SortedBatch(r') && multiset(r') == multiset(r) + multiset{x}
  {
    var k := |r|;
    while k > 0 && Before(x.event, r[k - 1].event)
      invariant 0 <= k <= |r|
      invariant forall i :: k <= i < |r| ==> Before(x.event, r[i].event)
    {
      k := k - 1;
    }
    PositionFound(r, k, x);
    SpliceSorted(r, k, x);
    r' := r[..k] + [x] + r[k..];
  }

  lemma PositionFound(r: seq<EventToWrite>, k: nat, x: EventToWrite)
    requires SortedBatch(r) && k <= |r| && (k > 0 ==> !Before(x.event, r[k - 1].event))
    requires forall i :: k <= i < |r| ==> Before(x.event, r[i].event)
    ensures forall i :: 0 <= i < k ==> !Before(x.event, r[i].event)
    ensures forall i :: k <= i < |r| ==> !Before(r[i].event, x.event)
  {
    forall i | 0 <= i < k ensures !Before(x.event, r[i].event) { BeforeOrder(r[i].event, r[k - 1].event, x.event); }
    forall i | k <= i < |r| ensures !Before(r[i].event, x.event) { BeforeOrder(x.event, r[i].event, x.event); }
  }

  /** `std::sort` on the batch. */
  method SortBatch(evs: seq<EventToWrite>) returns (r: seq<EventToWrite>)
    ensures SortedBatch(r) && multiset(r) == multiset(evs)
  {
    r := [];
    for n := 0 to |evs|
      invariant SortedBatch(r) && multiset(r) == multiset(evs[..n])
    {
      assert evs[..n + 1] == evs[..n] + [evs[n]];
      r := InsertSorted(r, evs[n]);
    }
    assert evs[..|evs|] == evs;
  }

  function EventsOf(evs: seq<EventToWrite>): (r: seq<Event>)
    ensures |r| == |evs| && forall i :: 0 <= i < |r| ==> r[i] == evs[i].event
  {
    seq(|evs|, i requires 0 <= i < |evs| => evs[i].event)
  }

  /** The status an event of a sorted batch ends up with: what the store says at its
      turn, except that a repetition of the event before it is a duplicate. */
  ghost function StatusAt(events: Table, es: seq<Event>, i: nat): (s: Status)
    requires i < |es|
  {
    if i > 0 && es[i].id == es[i - 1].id then Duplicate else StatusOf(Apply(events, es[..i]), es[i])
  }

  /** Whether a batch may be written: its events are fresh and well-formed, and an
      id determines its event. */
  predicate BatchOk(evs: seq<EventToWrite>) {
    && (forall i :: 0 <= i < |evs| ==> evs[i].status == Pending && EventOk(evs[i].event))
    && forall i, j :: 0 <= i < j < |evs| && evs[i].event.id == evs[j].event.id ==> evs[i].event == evs[j].event
  }

  lemma SortedBatchOk(evs: seq<EventToWrite>, r: seq<EventToWrite>)
    requires BatchOk(evs) && multiset(r) == multiset(evs)
    ensures BatchOk(r)
  {
    forall i | 0 <= i < |r| ensures r[i] in evs { assert r[i] in multiset(r); }
  }

  /** Writing the event before it left nothing to do for a repetition. */
  lemma RepeatIsNoop(events: Table, es: seq<Event>, i: nat)
    requires 0 < i < |es| && es[i] == es[i - 1]
    ensures WriteOne(Apply(events, es[..i]), es[i]) == Apply(events, es[..i])
  {
    assert es[..i][..i - 1] == es[..i - 1];
    WriteTwice(Apply(events, es[..i - 1]), es[i]);
  }

  /** `r` is the batch in processing order, with statuses and levIds filled in. */
  ghost predicate Processed(evs: seq<EventToWrite>, r: seq<EventToWrite>) {
    exists sorted: seq<EventToWrite> :: SortedBatch(sorted) && multiset(sorted) == multiset(evs) && SameInputs(sorted, r)
  }

  ghost predicate SameInputs(sorted: seq<EventToWrite>, r: seq<EventToWrite>) {
    && |r| <= |sorted|
    && forall i :: 0 <= i < |r| ==> r[i] == sorted[i].(status := r[i].status, levId := r[i].levId)
  }

  /** The statuses and levIds of the first events of `es`. */
  ghost predicate Reported(events: Table, es: seq<Event>, r: seq<EventToWrite>) {
    && |r| <= |es|
    && forall i :: 0 <= i < |r| ==>
        && r[i].status == StatusAt(events, es, i)
        && (r[i].status == Written ==> r[i].levId == MaxLevId(Apply(events, es[..i])) + 1)
  }

  /** Every event that was written and is still stored has its own JSON text behind it,
      and the events that were there before have the payloads they had. */
  ghost predicate Paid(first: map<nat, Bytes>, r: seq<EventToWrite>, payloads: map<nat, Bytes>) {
    && (forall i :: 0 <= i < |r| && r[i].status == Written && r[i].levId in payloads ==> payloads[r[i].levId] == [0] + r[i].json)
    && (forall l :: l in first && l in payloads ==> payloads[l] == first[l])
  }

  /** The levIds given out so far. */
  ghost predicate UpTo(first: map<nat, Bytes>, r: seq<EventToWrite>, max: nat) {
    && (forall l :: l in first ==> l <= max)
    && (forall i :: 0 <= i < |r| && r[i].status == Written ==> r[i].levId <= max)
  }

  lemma PaidNext(first: map<nat, Bytes>, r: seq<EventToWrite>, ev: EventToWrite, before: map<nat, Bytes>, after: map<nat, Bytes>, max: nat, max': nat)
    requires Paid(first, r, before) && UpTo(first, r, max) && Unaltered(before, after, max + 1) && max <= max'
    requires ev.status == Written ==> ev.levId == max + 1 <= max' && ev.levId in after && after[ev.levId] == [0] + ev.json
    ensures Paid(first, r + [ev], after) && UpTo(first, r + [ev], max')
  {
  }

  /** writeEvents: the batch is sorted, and the store ends up as if the events had
      been written one after the other in that order. */
  method WriteEvents(db: Database, cache: NegentropyFilterCache, evs: seq<EventToWrite>) returns (r: seq<EventToWrite>)
    requires db.Valid() && db.FiltersOk() && cache.Consistent(db.negFilters, db.negentropyModificationCounter)
    requires BatchOk(evs)
    modifies db`events, db`payloads, db`trees, cache
    ensures db.Valid() && cache.Consistent(db.negFilters, db.negentropyModificationCounter)
    ensures |r| == |evs| && Processed(evs, r)
    ensures db.events == Apply(old(db.events), EventsOf(r))
    ensures Reported(old(db.events), EventsOf(r), r)
    ensures forall i :: 0 <= i < |r| && r[i].status == Written && r[i].levId in db.events ==>
      r[i].levId in db.payloads && db.payloads[r[i].levId] == [0] + r[i].json
    ensures forall l :: l in old(db.events) && l in db.events ==>
      l in db.payloads && l in old(db.payloads) && db.payloads[l] == old(db.payloads)[l]
  {
    cache.Freshen(db);
    var sorted := SortBatch(evs);
    SortedBatchOk(evs, sorted);
    assert |multiset(sorted)| == |multiset(evs)|;
    r := WriteSorted(db, cache, sorted);
    assert EventsOf(r) == EventsOf(sorted);
  }

  method WriteSorted(db: Database, cache: NegentropyFilterCache, sorted: seq<EventToWrite>) returns (r: seq<EventToWrite>)
    requires db.Valid() && cache.UpToDate(db.negFilters) && BatchOk(sorted)
    modifies db`events, db`payloads, db`trees
    ensures db.Valid()
    ensures |r| == |sorted| && SameInputs(sorted, r)
    ensures db.events == Apply(old(db.events), EventsOf(sorted))
    ensures Reported(old(db.events), EventsOf(sorted), r) && Paid(old(db.payloads), r, db.payloads)
  {
    r := [];
    ghost var first, max := db.payloads, MaxLevId(db.events);
    KnownLevIds(db);
    for i := 0 to |sorted|
      invariant db.Valid() && max == MaxLevId(db.events)
      invariant Paid(first, r, db.payloads) && UpTo(first, r, max)
      invariant |r| == i && SameInputs(sorted, r)
      invariant db.events == Apply(old(db.events), EventsOf(sorted)[..i])
      invariant Reported(old(db.events), EventsOf(sorted), r)
    {
      ghost var before, max0 := db.payloads, max;
      var ev := WriteNext(db, cache, sorted, i, old(db.events));
      max := MaxLevId(db.events);
      ReportNext(old(db.events), sorted, r, ev);
      PaidNext(first, r, ev, before, db.payloads, max0, max);
      r := r + [ev];
    }
    assert EventsOf(sorted)[..|sorted|] == EventsOf(sorted);
  }

  lemma KnownLevIds(db: Database)
    requires db.Tables()
    ensures UpTo(db.payloads, [], MaxLevId(db.events))
  {
    forall l | l in db.payloads ensures l <= MaxLevId(db.events) { assert l in db.payloads.Keys; }
  }

  lemma ReportNext(events: Table, sorted: seq<EventToWrite>, r: seq<EventToWrite>, ev: EventToWrite)
    requires |r| < |sorted| && SameInputs(sorted, r) && Reported(events, EventsOf(sorted), r)
    requires ev == sorted[|r|].(status := ev.status, levId := ev.levId)
    requires ev.status == StatusAt(events, EventsOf(sorted), |r|)
    requires ev.status == Written ==> ev.levId == MaxLevId(Apply(events, EventsOf(sorted)[..|r|])) + 1
    ensures SameInputs(sorted, r + [ev]) && Reported(events, EventsOf(sorted), r + [ev])
  {
  }

  lemma ApplyNext(events: Table, es: seq<Event>, i: nat)
    requires i < |es|
    ensures Apply(events, es[..i + 1]) == WriteOne(Apply(events, es[..i]), es[i])
  {
    assert es[..i + 1][..i] == es[..i];
  }

  method WriteNext(db: Database, cache: NegentropyFilterCache, sorted: seq<EventToWrite>, i: nat, ghost events: Table) returns (ev: EventToWrite)
    requires db.Valid() && cache.UpToDate(db.negFilters) && BatchOk(sorted) && i < |sorted|
    requires db.events == Apply(events, EventsOf(sorted)[..i])
    modifies db`events, db`payloads, db`trees
    ensures db.Valid()
    ensures db.events == Apply(events, EventsOf(sorted)[..i + 1])
    ensures ev == sorted[i].(status := ev.status, levId := ev.levId)
    ensures ev.status == StatusAt(events, EventsOf(sorted), i)
    ensures ev.status == Written ==>
      ev.levId == MaxLevId(old(db.events)) + 1 == MaxLevId(db.events) && ev.levId in db.payloads && db.payloads[ev.levId] == [0] + ev.json
    ensures Unaltered(old(db.payloads), db.payloads, MaxLevId(old(db.events)) + 1) && MaxLevId(db.events) >= MaxLevId(old(db.events))
  {
    ghost var es := EventsOf(sorted);
    var repeated := i != 0 && sorted[i].event.id == sorted[i - 1].event.id;
    if repeated { RepeatIsNoop(events, es, i); }
    MaxLevIdGrows(db.events, es[i]);
    ApplyNext(events, es, i);
    ev := WriteEvent(db, cache, sorted[i], repeated);
  }

  /** The write of event `i` puts `e` at `l`. */
  ghost predicate PutBy(events: Table, es: seq<Event>, i: nat, l: nat, e: Event)
    requires i < |es|
  {
    var before := Apply(events, es[..i]);
    StatusOf(before, es[i]) == Written && l == MaxLevId(before) + 1 && es[i] == e
  }

  /** A stored event was there before, or one of the writes has put it there. */
  lemma {:induction false} StoredComesFrom(events: Table, es: seq<Event>, l: nat)
    requires l in Apply(events, es)
    ensures (l in events && events[l] == Apply(events, es)[l]) || exists i :: 0 <= i < |es| && PutBy(events, es, i, l, Apply(events, es)[l])
    decreases |es|
  {
    if es != [] {
      var n := |es| - 1;
      var d := Apply(events, es[..n]);
      if StatusOf(d, es[n]) == Written { WriteAdds(d, es[n]); }
      if l in d && d[l] == Apply(events, es)[l] {
        StoredComesFrom(events, es[..n], l);
        if i :| 0 <= i < n && PutBy(events, es[..n], i, l, d[l]) {
          assert es[..n][..i] == es[..i];
          assert PutBy(events, es, i, l, d[l]);
        }
      } else {
        assert PutBy(events, es, n, l, Apply(events, es)[l]);
      }
    }
  }

  lemma PutIsReported(events: Table, r: seq<EventToWrite>, i: nat, l: nat, e: Event)
    requires Reported(events, EventsOf(r), r) && i < |r| && PutBy(events, EventsOf(r), i, l, e)
    requires i > 0 && r[i].event.id == r[i - 1].event.id ==> r[i].event == r[i - 1].event
    ensures r[i].status == Written && r[i].levId == l && r[i].event == e
  {
    var es := EventsOf(r);
    if i > 0 && es[i].id == es[i - 1].id {
      RepeatIsNoop(events, es, i);
      WriteAdds(Apply(events, es[..i]), es[i]);
    }
    assert r[i].status == StatusAt(events, es, i);
  }

  /** What is stored after a batch and was not before is one of the entries that the batch
      reports as written. */
  lemma NewIsReported(events: Table, r: seq<EventToWrite>, l: nat)
    requires Reported(events, EventsOf(r), r) && l in Apply(events, EventsOf(r))
    requires forall i, j :: 0 <= i < j < |r| && r[i].event.id == r[j].event.id ==> r[i].event == r[j].event
    ensures
      || (l in events && events[l] == Apply(events, EventsOf(r))[l])
      || exists i :: 0 <= i < |r| && r[i].status == Written && r[i].levId == l && r[i].event == Apply(events, EventsOf(r))[l]
  {
    var e := Apply(events, EventsOf(r))[l];
    StoredComesFrom(events, EventsOf(r), l);
    if i :| 0 <= i < |r| && PutBy(events, EventsOf(r), i, l, e) { PutIsReported(events, r, i, l, e); }
  }

  /** deleteEvents: deletes the listed events that are still there. */
  method DeleteEvents(db: Database, cache: NegentropyFilterCache, levIds: seq<nat>) returns (numDeleted: nat)
    requires db.Valid() && db.FiltersOk() && cache.Consistent(db.negFilters, db.negentropyModificationCounter)
    modifies db`events, db`payloads, db`trees, cache
    ensures db.Valid() && cache.Consistent(db.negFilters, db.negentropyModificationCounter)
    ensures db.events == old(db.events) - Named(levIds) && db.payloads == old(db.payloads) - Named(levIds)
    ensures numDeleted == |old(db.events)| - |db.events|
  {
    RemovalKeepsInv(db.events, Named(levIds));
    cache.Freshen(db);
    numDeleted := RemoveAll(db, cache, levIds);
  }

  lemma RemovalKeepsInv(events: Table, gone: set<nat>)
    requires StoreInv(events)
    ensures StoreInv(events - gone)
  {
  }
}
