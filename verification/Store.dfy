/** What writing an event means for the store (src/events_write.cpp), and what
    every write keeps. */
module Store {
  import opened ByteStrings
  import opened Results
  import opened Events

  datatype Status = Pending | Written | Duplicate | Replaced | Deleted

  /** What parsing guarantees of a packed event: fixed-size ids, keys and e-tags. */
  predicate EventOk(e: Event) {
    && |e.id| == 32 && |e.pubkey| == 32
    && forall t :: t in e.tags && t.name == TAG_E ==> |t.value| == 32
  }

  /** The slot that replaceable and parameterized-replaceable events compete for. */
  datatype Slot = Slot(pubkey: Bytes, d: Bytes, kind: nat)

  function SlotOf(e: Event): (s: Option<Slot>) {
    if (IsReplaceable(e.kind) || IsParamReplaceable(e.kind)) && FirstD(e.tags).Some?
    then Some(Slot(e.pubkey, FirstD(e.tags).value, e.kind))
    else None
  }

  /** Which of two events of a slot survives: the newer one, then the lower id. */
  predicate Beats(a: Event, b: Event) {
    a.createdAt > b.createdAt || (a.createdAt == b.createdAt && Less(a.id, b.id))
  }

  /** A kind-5 event asks for the deletion of an event of its own author. */
  predicate Targets(d: Event, e: Event) {
    IsDeletion(d.kind) && d.pubkey == e.pubkey && Tag(TAG_E, e.id) in d.tags
  }

  predicate HasId(db: Table, id: Bytes) {
    exists l :: l in db && db[l].id == id
  }

  predicate Tombstoned(db: Table, e: Event) {
    exists l :: l in db && Targets(db[l], e)
  }

  predicate SameSlot(a: Event, b: Event) {
    SlotOf(a).Some? && SlotOf(a) == SlotOf(b)
  }

  predicate Outranked(db: Table, e: Event) {
    exists l :: l in db && SameSlot(e, db[l]) && !Beats(e, db[l])
  }

  function StatusOf(db: Table, e: Event): (s: Status)
    ensures s != Pending
  {
    if HasId(db, e.id) then Duplicate
    else if Tombstoned(db, e) then Deleted
    else if Outranked(db, e) then Replaced
    else Written
  }

  /** The events that writing `e` removes. */
  predicate Victim(db: Table, e: Event, l: nat) {
    l in db && (SameSlot(e, db[l]) || Targets(e, db[l]))
  }

  predicate IsLargest(keys: set<nat>, m: nat) {
    m in keys && forall l :: l in keys ==> l <= m
  }

  lemma {:induction false} LargestExists(keys: set<nat>)
    requires keys != {}
    ensures exists m: nat :: IsLargest(keys, m)
    decreases |keys|
  {
    var x :| x in keys;
    var rest := keys - {x};
    assert forall l :: l in keys ==> l == x || l in rest;
    if rest == {} {
      assert IsLargest(keys, x);
    } else {
      LargestExists(rest);
      var m: nat :| IsLargest(rest, m);
      assert IsLargest(keys, if m > x then m else x);
    }
  }

  /** The largest levId in use, 0 for an empty store. */
  ghost function MaxLevId(db: Table): (m: nat)
    ensures forall l :: l in db ==> l <= m
    ensures db != map[] ==> m in db
  {
    if db == map[] then 0
    else
      LargestExists(db.Keys);
      var m: nat :| IsLargest(db.Keys, m);
      m
  }

  lemma MaxLevIdIs(db: Table, m: nat)
    requires m in db && forall l :: l in db ==> l <= m
    ensures MaxLevId(db) == m
  {
  }

  ghost function Survivors(db: Table, e: Event): (r: Table)
    ensures forall l :: l in r <==> l in db && !Victim(db, e, l)
    ensures forall l :: l in r ==> r[l] == db[l]
  {
    map l | l in db && !Victim(db, e, l) :: db[l]
  }

  ghost function WriteOne(db: Table, e: Event): (db': Table) {
    if StatusOf(db, e) != Written then db
    else Survivors(db, e)[MaxLevId(db) + 1 := e]
  }

  ghost function Apply(db: Table, es: seq<Event>): (db': Table) {
    if es == [] then db else WriteOne(Apply(db, es[..|es| - 1]), es[|es| - 1])
  }

  /** What happens to an event, said in full: it is a duplicate if its id is stored; else
      deleted if a stored event of kind 5 by its author has an e-tag with its id; else
      replaced if it competes with a stored event that is newer, or as old without a
      greater id; and else it is written. */
  lemma StatusIs(db: Table, e: Event)
    ensures StatusOf(db, e) == Duplicate <==> exists l :: l in db && db[l].id == e.id
    ensures StatusOf(db, e) == Deleted <==>
      && (forall l :: l in db ==> db[l].id != e.id)
      && exists l :: l in db && db[l].kind == 5 && db[l].pubkey == e.pubkey && Tag('e' as int, e.id) in db[l].tags
    ensures StatusOf(db, e) == Replaced <==>
      && (forall l :: l in db ==> db[l].id != e.id)
      && (forall l :: l in db ==> !(db[l].kind == 5 && db[l].pubkey == e.pubkey && Tag('e' as int, e.id) in db[l].tags))
      && exists l ::
          && l in db && db[l].pubkey == e.pubkey && db[l].kind == e.kind
          && (e.kind in {0, 3, 41} || 10_000 <= e.kind < 20_000 || 30_000 <= e.kind < 40_000)
          && FirstD(e.tags).Some? && FirstD(db[l].tags) == FirstD(e.tags)
          && (db[l].createdAt > e.createdAt || (db[l].createdAt == e.createdAt && !Less(e.id, db[l].id)))
    ensures StatusOf(db, e) in {Duplicate, Deleted, Replaced, Written}
  {
  }

  /** A written event gets the next levId, and the event it competes with goes, and, if it
      is of kind 5, the events by its author that its e-tags name. */
  lemma WrittenIs(db: Table, e: Event, l: nat)
    requires StatusOf(db, e) == Written
    ensures MaxLevId(db) + 1 in WriteOne(db, e) && WriteOne(db, e)[MaxLevId(db) + 1] == e
    ensures l != MaxLevId(db) + 1 ==>
      (l in WriteOne(db, e) <==>
        && l in db
        && !(db[l].pubkey == e.pubkey && db[l].kind == e.kind
             && (e.kind in {0, 3, 41} || 10_000 <= e.kind < 20_000 || 30_000 <= e.kind < 40_000)
             && FirstD(e.tags).Some? && FirstD(db[l].tags) == FirstD(e.tags))
        && !(e.kind == 5 && db[l].pubkey == e.pubkey && Tag('e' as int, db[l].id) in e.tags))
  {
  }

  // ---------------------------------------------------------------------------
  // What every write keeps

  ghost predicate UniqueIds(db: Table) {
    forall l, m :: l in db && m in db && db[l].id == db[m].id ==> l == m
  }

  ghost predicate SlotsUnique(db: Table) {
    forall l, m :: l in db && m in db && SameSlot(db[l], db[m]) ==> l == m
  }

  /** No stored event is the target of another stored event. */
  ghost predicate TargetsGone(db: Table) {
    forall l, m :: l in db && m in db && l != m ==> !Targets(db[l], db[m])
  }

  ghost predicate StoreInv(db: Table) {
    && UniqueIds(db) && SlotsUnique(db) && TargetsGone(db)
    && forall l :: l in db ==> l >= 1 && EventOk(db[l])
  }

  /** `db'` is `db` with `e` added under the fresh levId `n` and its victims gone. */
  ghost predicate RowAdded(db: Table, e: Event, n: nat, db': Table) {
    && n !in db && n in db' && db'[n] == e
    && (forall l :: l in db' && l != n ==> l in db && db'[l] == db[l] && !Victim(db, e, l))
    && (forall l :: l in db && !Victim(db, e, l) ==> l in db')
  }

  lemma WriteAdds(db: Table, e: Event)
    requires StatusOf(db, e) == Written
    ensures RowAdded(db, e, MaxLevId(db) + 1, WriteOne(db, e))
  {
  }

  lemma AddKeepsIds(db: Table, e: Event, n: nat, db': Table)
    requires RowAdded(db, e, n, db') && UniqueIds(db) && !HasId(db, e.id)
    ensures UniqueIds(db')
  {
    forall l, m | l in db' && m in db' && db'[l].id == db'[m].id ensures l == m {
      if l != n && m != n { assert db[l].id == db[m].id; }
    }
  }

  lemma AddKeepsSlots(db: Table, e: Event, n: nat, db': Table)
    requires RowAdded(db, e, n, db') && SlotsUnique(db)
    ensures SlotsUnique(db')
  {
    forall l, m | l in db' && m in db' && SameSlot(db'[l], db'[m]) ensures l == m {
      if l != n && m != n { assert SameSlot(db[l], db[m]); }
    }
  }

  lemma AddKeepsTargetsGone(db: Table, e: Event, n: nat, db': Table)
    requires RowAdded(db, e, n, db') && TargetsGone(db) && !Tombstoned(db, e)
    ensures TargetsGone(db')
  {
    forall l, m | l in db' && m in db' && l != m ensures !Targets(db'[l], db'[m]) {
      if l != n && m != n { assert !Targets(db[l], db[m]); }
    }
  }

  /** After every write there is one event per id and per slot, and nothing that a
      stored kind-5 event of the same author targets. */
  lemma WriteKeepsInv(db: Table, e: Event)
    requires StoreInv(db) && EventOk(e)
    ensures StoreInv(WriteOne(db, e))
  {
    if StatusOf(db, e) == Written {
      var n, db' := MaxLevId(db) + 1, WriteOne(db, e);
      WriteAdds(db, e);
      AddKeepsIds(db, e, n, db');
      AddKeepsSlots(db, e, n, db');
      AddKeepsTargetsGone(db, e, n, db');
    }
  }

  /** An event leaves the store only because an event of its own author is written. */
  lemma LeavesOnlyByAuthor(db: Table, e: Event, l: nat)
    requires l in db && l !in WriteOne(db, e)
    ensures db[l].pubkey == e.pubkey && StatusOf(db, e) == Written
    ensures (SameSlot(e, db[l]) && Beats(e, db[l])) || Targets(e, db[l])
  {
  }

  /** The largest levId never decreases, and a new event gets a larger one. */
  lemma MaxLevIdGrows(db: Table, e: Event)
    ensures MaxLevId(WriteOne(db, e)) >= MaxLevId(db)
    ensures StatusOf(db, e) == Written ==> MaxLevId(WriteOne(db, e)) == MaxLevId(db) + 1
  {
    var n := MaxLevId(db) + 1;
    if StatusOf(db, e) == Written { MaxLevIdIs(WriteOne(db, e), n); }
  }

  /** Writing an event a second time changes nothing. */
  lemma WriteTwice(db: Table, e: Event)
    ensures WriteOne(WriteOne(db, e), e) == WriteOne(db, e)
  {
    if StatusOf(db, e) == Written {
      WriteAdds(db, e);
      assert HasId(WriteOne(db, e), e.id);
    }
  }

  lemma {:induction false} ApplyKeepsInv(db: Table, es: seq<Event>)
    requires StoreInv(db) && forall e :: e in es ==> EventOk(e)
    ensures StoreInv(Apply(db, es))
    ensures MaxLevId(Apply(db, es)) >= MaxLevId(db)
    decreases |es|
  {
    if es != [] {
      var n := |es| - 1;
      ApplyKeepsInv(db, es[..n]);
      WriteKeepsInv(Apply(db, es[..n]), es[n]);
      MaxLevIdGrows(Apply(db, es[..n]), es[n]);
    }
  }

  lemma {:induction false} ApplyConcat(db: Table, a: seq<Event>, b: seq<Event>)
    ensures Apply(db, a + b) == Apply(Apply(db, a), b)
    decreases |b|
  {
    if b == [] {
      assert a + b == a;
    } else {
      var n := |b| - 1;
      assert (a + b)[..|a + b| - 1] == a + b[..n];
      ApplyConcat(db, a, b[..n]);
    }
  }
}
